/**
  The canvas-to-Markdown export (`generateMarkdown` in src/utils/storage.ts):
  one pass over the page's shapes sorts them into four buckets of bullets,
  then a fixed header, the non-empty sections in a fixed order (or a
  placeholder) are joined with line feeds.
 */
module Markdown {
  import opened Wrappers
  import Strings
  import RichText

  /** The `props` of a shape that the exporter reads; a field the shape does
      not carry is None. tldraw types these fields as strings, so a
      non-string value (on which `text.replace` would throw) is not modelled. */
  datatype Props = Props(richText: RichText.Node, text: Option<string>, url: Option<string>, name: Option<string>)

  /** A shape of the current page: its `type` tag and its `props`. */
  datatype Shape = Shape(kind: string, props: Props)

  /** The four local arrays `texts`, `embeds`, `images` and `notes`. */
  datatype Buckets = Buckets(texts: seq<string>, embeds: seq<string>, images: seq<string>, notes: seq<string>)

  const TextHeading := "## 文本"
  const EmbedHeading := "## 链接/视频"
  const ImageHeading := "## 图片"
  const NoteHeading := "## 笔记"
  const EmptyCanvas := "(画布为空)"
  const Unnamed := "(未命名)"

  /** The first four lines; `savedAt` is the locale-formatted wall-clock time of the save. */
  function Header(name: string, savedAt: string): seq<string>
  {
    ["# " + name, "", "> 保存时间: " + savedAt, ""]
  }

  /** A string-valued field is truthy when present and non-empty. */
  predicate Present(o: Option<string>)
  {
    o.Some? && o.value != ""
  }

  /** `extractTextFromRichText(props.richText) || props.text`, with "" for
      every falsy outcome: the rich text wins whenever it gives anything, and
      the text is empty only when neither gives anything. */
  function TextOf(p: Props): (r: string)
    ensures RichText.ExtractText(p.richText).Some? ==> r == RichText.ExtractText(p.richText).value
    ensures r == "" <==> RichText.ExtractText(p.richText).None? && !Present(p.text)
  {
    match RichText.ExtractText(p.richText)
    case Some(t) => t
    case None => if p.text.Some? then p.text.value else ""
  }

  /** `- ${text.replace(/\n/g, '\n  ')}` */
  function Bullet(text: string): string
  {
    "- " + Strings.Indent(text)
  }

  /** `- 📝 ${text.replace(/\n/g, '\n  ')}` */
  function NoteBullet(text: string): string
  {
    "- \U{1F4DD} " + Strings.Indent(text)
  }

  /** `- [${url}](${url})` */
  function EmbedBullet(url: string): string
  {
    "- [" + url + "](" + url + ")"
  }

  /** `props.name || props.url || '(未命名)'` */
  function ImageName(p: Props): string
  {
    if Present(p.name) then p.name.value
    else if Present(p.url) then p.url.value
    else Unnamed
  }

  function ImageBullet(p: Props): string
  {
    "- 图片: " + ImageName(p)
  }

  const NoBullets := Buckets([], [], [], [])

  /** The shape types the exporter distinguishes. */
  datatype Kind = TextKind | EmbedKind | ImageKind | NoteKind | GeoKind | OtherKind

  function KindOf(tag: string): Kind
  {
    if tag == "text" then TextKind
    else if tag == "embed" then EmbedKind
    else if tag == "image" then ImageKind
    else if tag == "note" then NoteKind
    else if tag == "geo" then GeoKind
    else OtherKind
  }

  /** The number of bullets in all four buckets. */
  function Size(b: Buckets): nat
  {
    |b.texts| + |b.embeds| + |b.images| + |b.notes|
  }

  /** The bullets already in a bucket stay, in front. */
  predicate Extends(b: Buckets, c: Buckets)
  {
    b.texts <= c.texts && b.embeds <= c.embeds && b.images <= c.images && b.notes <= c.notes
  }

  /** One turn of the `for` loop: the bullet, if any, that a shape adds to a
      bucket. Nothing already pushed changes, at most one bullet is added, and
      an image always adds one. */
  function AddShape(b: Buckets, s: Shape): (r: Buckets)
    ensures Extends(b, r)
    ensures Size(r) <= Size(b) + 1
    ensures KindOf(s.kind) == ImageKind ==> Size(r) == Size(b) + 1
  {
    match KindOf(s.kind)
    case TextKind =>
      if TextOf(s.props) != "" then b.(texts := b.texts + [Bullet(TextOf(s.props))]) else b
    case EmbedKind =>
      if Present(s.props.url) then b.(embeds := b.embeds + [EmbedBullet(s.props.url.value)]) else b
    case ImageKind =>
      b.(images := b.images + [ImageBullet(s.props)])
    case NoteKind =>
      if TextOf(s.props) != "" then b.(notes := b.notes + [NoteBullet(TextOf(s.props))]) else b
    case GeoKind =>
      if TextOf(s.props) != "" then b.(notes := b.notes + [Bullet(TextOf(s.props))]) else b
    case OtherKind => b
  }

  /** The buckets after the loop has seen `shapes`, in order; every image
      gives exactly one bullet, named or not. */
  function Bucketize(shapes: seq<Shape>): (r: Buckets)
    ensures |r.images| == CountKind(shapes, ImageKind)
  {
    if shapes == [] then NoBullets
    else AddShape(Bucketize(shapes[..|shapes| - 1]), shapes[|shapes| - 1])
  }

  predicate AllEmpty(b: Buckets)
  {
    b.texts == [] && b.embeds == [] && b.images == [] && b.notes == []
  }

  /** `lines.push(heading, '', ...bullets, '')` when there are bullets. */
  function Section(heading: string, bullets: seq<string>): seq<string>
  {
    if bullets == [] then [] else [heading, ""] + bullets + [""]
  }

  /** Everything after the header. */
  function Body(b: Buckets): seq<string>
  {
    Section(TextHeading, b.texts) + Section(EmbedHeading, b.embeds) +
    Section(ImageHeading, b.images) + Section(NoteHeading, b.notes) +
    (if AllEmpty(b) then [EmptyCanvas] else [])
  }

  /** The `lines` array that `generateMarkdown` joins: the four header
      lines, then at least one more, the last being the blank line that closes
      a section or the placeholder. */
  function Lines(shapes: seq<Shape>, name: string, savedAt: string): (r: seq<string>)
    ensures |r| > 4 && r[..4] == Header(name, savedAt)
    ensures r[|r| - 1] == "" || r[|r| - 1] == EmptyCanvas
  {
    Header(name, savedAt) + Body(Bucketize(shapes))
  }

  /** Pushing the four sections and the placeholder one after another onto
      `lines` appends the body. */
  lemma PushedSections(lines: seq<string>, b: Buckets)
    ensures lines + Section(TextHeading, b.texts) + Section(EmbedHeading, b.embeds) +
      Section(ImageHeading, b.images) + Section(NoteHeading, b.notes) +
      (if AllEmpty(b) then [EmptyCanvas] else []) == lines + Body(b)
  {
    var s1, s2, s3, s4 := Section(TextHeading, b.texts), Section(EmbedHeading, b.embeds),
      Section(ImageHeading, b.images), Section(NoteHeading, b.notes);
    var t: seq<string> := if AllEmpty(b) then [EmptyCanvas] else [];
    assert lines + s1 + s2 == lines + (s1 + s2);
    assert lines + (s1 + s2) + s3 == lines + (s1 + s2 + s3);
    assert lines + (s1 + s2 + s3) + s4 == lines + (s1 + s2 + s3 + s4);
    assert lines + (s1 + s2 + s3 + s4) + t == lines + (s1 + s2 + s3 + s4 + t);
  }

  /** The start of every export: the title, a blank line, the save time, a blank line. */
  function Preamble(name: string, savedAt: string): string
  {
    "# " + name + "\n\n> 保存时间: " + savedAt + "\n\n"
  }

  /** `generateMarkdown(editor, name)`, the page's shapes and the save time given. */
  method GenerateMarkdown(shapes: seq<Shape>, name: string, savedAt: string) returns (md: string)
    ensures md == Strings.Join(Lines(shapes, name, savedAt), "\n")
    ensures Strings.StartsWith(md, Preamble(name, savedAt))
  {
    var lines := ["# " + name, "", "> 保存时间: " + savedAt, ""];
    var texts: seq<string> := [];
    var embeds: seq<string> := [];
    var images: seq<string> := [];
    var notes: seq<string> := [];
    for i := 0 to |shapes|
      invariant Buckets(texts, embeds, images, notes) == Bucketize(shapes[..i])
    {
      var shape := shapes[i];
      var props := shape.props;
      if shape.kind == "text" {
        var text := TextOf(props);
        if text != "" {
          texts := texts + ["- " + Strings.Indent(text)];
        }
      } else if shape.kind == "embed" {
        if props.url.Some? && props.url.value != "" {
          var url := props.url.value;
          embeds := embeds + ["- [" + url + "](" + url + ")"];
        }
      } else if shape.kind == "image" {
        images := images + ["- 图片: " + ImageName(props)];
      } else if shape.kind == "note" {
        var text := TextOf(props);
        if text != "" {
          notes := notes + ["- \U{1F4DD} " + Strings.Indent(text)];
        }
      } else if shape.kind == "geo" {
        var text := TextOf(props);
        if text != "" {
          notes := notes + ["- " + Strings.Indent(text)];
        }
      }
      BucketizeStep(shapes, i);
    }
    assert shapes[..|shapes|] == shapes;
    ghost var b := Bucketize(shapes);
    lines := PushSection(lines, TextHeading, texts);
    lines := PushSection(lines, EmbedHeading, embeds);
    lines := PushSection(lines, ImageHeading, images);
    lines := PushSection(lines, NoteHeading, notes);
    if |texts| == 0 && |embeds| == 0 && |images| == 0 && |notes| == 0 {
      lines := lines + [EmptyCanvas];
    }
    PushedSections(Header(name, savedAt), b);
    assert lines == Header(name, savedAt) + Body(b);
    md := Strings.Join(lines, "\n");
    PreambleFirst(shapes, name, savedAt);
  }

  /** `if (bullets.length > 0) lines.push(heading, '', ...bullets, '')` */
  method PushSection(lines: seq<string>, heading: string, bullets: seq<string>) returns (r: seq<string>)
    ensures r == lines + Section(heading, bullets)
  {
    r := lines;
    if |bullets| > 0 {
      r := r + [heading, ""] + bullets + [""];
    }
  }

  lemma BucketizeStep(shapes: seq<Shape>, i: nat)
    requires i < |shapes|
    ensures Bucketize(shapes[..i + 1]) == AddShape(Bucketize(shapes[..i]), shapes[i])
  {
    assert shapes[..i + 1][..i] == shapes[..i];
  }

  /** The body is never empty: a section or the placeholder follows the header. */
  lemma BodyNonEmpty(b: Buckets)
    ensures Body(b) != []
  {
  }

  /** The exported text always opens with the title and save-time lines. */
  lemma PreambleFirst(shapes: seq<Shape>, name: string, savedAt: string)
    ensures Strings.StartsWith(Strings.Join(Lines(shapes, name, savedAt), "\n"), Preamble(name, savedAt))
  {
    BodyNonEmpty(Bucketize(shapes));
    HeaderThenBody(name, savedAt, Body(Bucketize(shapes)));
  }

  lemma HeaderThenBody(name: string, savedAt: string, body: seq<string>)
    requires body != []
    ensures Strings.StartsWith(Strings.Join(Header(name, savedAt) + body, "\n"), Preamble(name, savedAt))
  {
    var h := Header(name, savedAt);
    Strings.JoinAppend(h, body, "\n");
    JoinFour(h[0], h[1], h[2], h[3], "\n");
    assert h == [h[0], h[1], h[2], h[3]];
    var pre := Strings.Join(h, "\n") + "\n";
    assert pre == Preamble(name, savedAt);
    var whole := pre + Strings.Join(body, "\n");
    assert whole[..|pre|] == pre;
  }

  lemma JoinFour(a: string, b: string, c: string, d: string, sep: string)
    ensures Strings.Join([a, b, c, d], sep) == a + sep + b + sep + c + sep + d
  {
    assert [a, b, c, d][1..] == [b, c, d];
    assert [b, c, d][1..] == [c, d];
    assert [c, d][1..] == [d];
    assert Strings.Join([c, d], sep) == c + sep + d;
    assert Strings.Join([b, c, d], sep) == b + sep + (c + sep + d);
  }

  /** The placeholder closes the export exactly when every bucket is empty;
      otherwise the last line is the blank line closing the last section. */
  lemma PlaceholderIffEmpty(shapes: seq<Shape>, name: string, savedAt: string)
    ensures var ls := Lines(shapes, name, savedAt);
      (ls[|ls| - 1] == EmptyCanvas <==> AllEmpty(Bucketize(shapes))) &&
      (AllEmpty(Bucketize(shapes)) ==> ls == Header(name, savedAt) + [EmptyCanvas])
  {
  }

  /** Shapes of a type the exporter does not know add nothing. */
  predicate Known(kind: string)
  {
    KindOf(kind) != OtherKind
  }

  /** A page holding only shapes of unknown types exports as the header and the placeholder. */
  lemma {:induction false} OnlyUnknownShapes(shapes: seq<Shape>, name: string, savedAt: string)
    requires forall i :: 0 <= i < |shapes| ==> !Known(shapes[i].kind)
    ensures Bucketize(shapes) == NoBullets
    ensures Lines(shapes, name, savedAt) == Header(name, savedAt) + [EmptyCanvas]
  {
    if shapes != [] {
      OnlyUnknownShapes(shapes[..|shapes| - 1], name, savedAt);
    }
  }

  /** Bucket-wise concatenation. */
  function Merge(a: Buckets, b: Buckets): Buckets
  {
    Buckets(a.texts + b.texts, a.embeds + b.embeds, a.images + b.images, a.notes + b.notes)
  }

  /** The single pass keeps shape order: the buckets of `a + b` are those of
      `a` followed by those of `b`. */
  lemma {:induction false} BucketizeAppend(a: seq<Shape>, b: seq<Shape>)
    ensures Bucketize(a + b) == Merge(Bucketize(a), Bucketize(b))
  {
    if b == [] {
      assert a + b == a;
    } else {
      var b' := b[..|b| - 1];
      assert (a + b)[..|a + b| - 1] == a + b';
      assert (a + b)[|a + b| - 1] == b[|b| - 1];
      BucketizeAppend(a, b');
      AddShapeMerge(Bucketize(a), Bucketize(b'), b[|b| - 1]);
    }
  }

  /** A shape's bullet lands at the end of its bucket, whatever came before. */
  lemma AddShapeMerge(x: Buckets, y: Buckets, s: Shape)
    ensures AddShape(Merge(x, y), s) == Merge(x, AddShape(y, s))
  {
    match KindOf(s.kind)
    case TextKind =>
      assert x.texts + y.texts + [Bullet(TextOf(s.props))] == x.texts + (y.texts + [Bullet(TextOf(s.props))]);
    case EmbedKind =>
    case ImageKind =>
      assert x.images + y.images + [ImageBullet(s.props)] == x.images + (y.images + [ImageBullet(s.props)]);
    case NoteKind =>
    case GeoKind =>
    case OtherKind =>
  }

  /** What one shape contributes, by type. */
  lemma ShapeContribution(s: Shape)
    ensures s.kind == "image" ==> Bucketize([s]) == Buckets([], [], [ImageBullet(s.props)], [])
    ensures s.kind == "embed" ==>
      Bucketize([s]) == if Present(s.props.url) then Buckets([], [EmbedBullet(s.props.url.value)], [], []) else NoBullets
    ensures s.kind == "text" ==>
      Bucketize([s]) == if TextOf(s.props) != "" then Buckets([Bullet(TextOf(s.props))], [], [], []) else NoBullets
    ensures s.kind == "note" ==>
      Bucketize([s]) == if TextOf(s.props) != "" then Buckets([], [], [], [NoteBullet(TextOf(s.props))]) else NoBullets
    ensures s.kind == "geo" ==>
      Bucketize([s]) == if TextOf(s.props) != "" then Buckets([], [], [], [Bullet(TextOf(s.props))]) else NoBullets
    ensures !Known(s.kind) ==> Bucketize([s]) == NoBullets
  {
    assert [s][..0] == [];
  }

  /** The number of shapes of one type: an independent count, by tag only. */
  function CountKind(shapes: seq<Shape>, kind: Kind): nat
  {
    if shapes == [] then 0
    else CountKind(shapes[..|shapes| - 1], kind) + (if KindOf(shapes[|shapes| - 1].kind) == kind then 1 else 0)
  }

  /** The texts of the shapes of one type that have text, in shape order. */
  function TextsOfKind(shapes: seq<Shape>, kind: Kind): seq<string>
  {
    if shapes == [] then []
    else
      var last := shapes[|shapes| - 1];
      TextsOfKind(shapes[..|shapes| - 1], kind) +
      (if KindOf(last.kind) == kind && TextOf(last.props) != "" then [TextOf(last.props)] else [])
  }

  /** A bullet's text with the "- " marker dropped and the indentation undone. */
  function Unbullet(b: string): string
  {
    if |b| < 2 then "" else Strings.Unindent(b[2..])
  }

  function Unbullets(bs: seq<string>): (r: seq<string>)
    ensures |r| == |bs|
  {
    if bs == [] then [] else Unbullets(bs[..|bs| - 1]) + [Unbullet(bs[|bs| - 1])]
  }

  /** What one turn of the loop adds to the text bucket. */
  lemma AddShapeTexts(b: Buckets, s: Shape)
    ensures AddShape(b, s).texts ==
      b.texts + (if KindOf(s.kind) == TextKind && TextOf(s.props) != "" then [Bullet(TextOf(s.props))] else [])
  {
  }

  /** Reading back a bullet gives its text. */
  lemma UnbulletBullet(t: string)
    ensures Unbullet(Bullet(t)) == t
  {
    assert Bullet(t)[2..] == Strings.Indent(t);
    Strings.UnindentIndent(t);
  }

  lemma UnbulletsSnoc(bs: seq<string>, x: string)
    ensures Unbullets(bs + [x]) == Unbullets(bs) + [Unbullet(x)]
  {
    assert (bs + [x])[..|bs|] == bs;
  }

  /** The text section loses nothing: reading its bullets back gives the text
      of every text shape that has one, in shape order. */
  lemma {:induction false} TextBulletsReadBack(shapes: seq<Shape>)
    ensures Unbullets(Bucketize(shapes).texts) == TextsOfKind(shapes, TextKind)
  {
    if shapes != [] {
      var init := shapes[..|shapes| - 1];
      var last := shapes[|shapes| - 1];
      TextBulletsReadBack(init);
      AddShapeTexts(Bucketize(init), last);
      if KindOf(last.kind) == TextKind && TextOf(last.props) != "" {
        UnbulletsSnoc(Bucketize(init).texts, Bullet(TextOf(last.props)));
        UnbulletBullet(TextOf(last.props));
      }
    }
  }

  /** Every bullet starts with "- ". */
  predicate Bulleted(bs: seq<string>)
  {
    forall i :: 0 <= i < |bs| ==> Strings.StartsWith(bs[i], "- ")
  }

  /** Every line feed in a text or note bullet is followed by two spaces, so
      a multi-line text stays one list item. */
  predicate Indented(bs: seq<string>)
  {
    forall i :: 0 <= i < |bs| ==> Strings.WellIndented(bs[i])
  }

  lemma IndentedBullet(prefix: string, text: string)
    requires '\n' !in prefix
    ensures Strings.WellIndented(prefix + Strings.Indent(text))
  {
    Strings.IndentWellIndented(text);
    Strings.PrefixWellIndented(prefix, Strings.Indent(text));
  }

  /** All bullets are marked, and the text and note bullets are well indented. */
  predicate WellFormed(b: Buckets)
  {
    Bulleted(b.texts) && Bulleted(b.embeds) && Bulleted(b.images) && Bulleted(b.notes) &&
    Indented(b.texts) && Indented(b.notes)
  }

  lemma AddShapeWellFormed(b: Buckets, s: Shape)
    requires WellFormed(b)
    ensures WellFormed(AddShape(b, s))
  {
    var t := TextOf(s.props);
    IndentedBullet("- ", t);
    IndentedBullet("- \U{1F4DD} ", t);
  }

  lemma {:induction false} BulletsWellFormed(shapes: seq<Shape>)
    ensures WellFormed(Bucketize(shapes))
  {
    if shapes != [] {
      BulletsWellFormed(shapes[..|shapes| - 1]);
      AddShapeWellFormed(Bucketize(shapes[..|shapes| - 1]), shapes[|shapes| - 1]);
    }
  }

  /** Reads one run of bullets up to the blank line that closes it;
      yields the bullets and the lines after that blank line. */
  function TakeBullets(ls: seq<string>): Option<(seq<string>, seq<string>)>
  {
    if ls == [] then None
    else if ls[0] == "" then Some(([], ls[1..]))
    else match TakeBullets(ls[1..])
      case None => None
      case Some(r) => Some(([ls[0]] + r.0, r.1))
  }

  /** Reads the section under `heading` if the lines start with it, or no bullets otherwise. */
  function TakeSection(ls: seq<string>, heading: string): Option<(seq<string>, seq<string>)>
  {
    if |ls| >= 2 && ls[0] == heading && ls[1] == "" then TakeBullets(ls[2..]) else Some(([], ls))
  }

  /** Reads the body back into buckets: the placeholder, or the four sections
      in their fixed order with nothing after them. */
  function ReadBody(ls: seq<string>): Option<Buckets>
  {
    if ls == [EmptyCanvas] then Some(NoBullets)
    else match TakeSection(ls, TextHeading)
      case None => None
      case Some(t) => match TakeSection(t.1, EmbedHeading)
        case None => None
        case Some(e) => match TakeSection(e.1, ImageHeading)
          case None => None
          case Some(i) => match TakeSection(i.1, NoteHeading)
            case None => None
            case Some(n) => if n.1 == [] then Some(Buckets(t.0, e.0, i.0, n.0)) else None
  }

  lemma {:induction false} TakeBulletsOf(bs: seq<string>, rest: seq<string>)
    requires Bulleted(bs)
    ensures TakeBullets(bs + [""] + rest) == Some((bs, rest))
  {
    if bs == [] {
      assert (bs + [""] + rest)[1..] == rest;
    } else {
      assert (bs + [""] + rest)[1..] == bs[1..] + [""] + rest;
      assert bs[0] != "" by { assert Strings.StartsWith(bs[0], "- "); }
      TakeBulletsOf(bs[1..], rest);
      assert [bs[0]] + bs[1..] == bs;
    }
  }

  lemma TakeSectionOf(heading: string, bs: seq<string>, rest: seq<string>)
    requires Bulleted(bs)
    requires bs == [] ==> rest == [] || rest[0] != heading
    ensures TakeSection(Section(heading, bs) + rest, heading) == Some((bs, rest))
  {
    var ls := Section(heading, bs) + rest;
    if bs != [] {
      assert ls[0] == heading && ls[1] == "";
      assert ls[2..] == bs + [""] + rest;
      TakeBulletsOf(bs, rest);
    } else {
      assert ls == rest;
    }
  }

  /** The body is unambiguous: reading it back gives the buckets it was made
      from. So a section appears exactly when its bucket has bullets, the
      sections keep their fixed order, and each holds its bullets in order. */
  lemma ReadBodyOf(b: Buckets)
    requires Bulleted(b.texts) && Bulleted(b.embeds) && Bulleted(b.images) && Bulleted(b.notes)
    ensures ReadBody(Body(b)) == Some(b)
  {
    if !AllEmpty(b) {
      var tail := if AllEmpty(b) then [EmptyCanvas] else [];
      assert tail == [];
      var r4 := Section(NoteHeading, b.notes) + tail;
      var r3 := Section(ImageHeading, b.images) + r4;
      var r2 := Section(EmbedHeading, b.embeds) + r3;
      assert Body(b) == Section(TextHeading, b.texts) + r2;
      assert Body(b) != [EmptyCanvas];
      TakeSectionOf(TextHeading, b.texts, r2);
      TakeSectionOf(EmbedHeading, b.embeds, r3);
      TakeSectionOf(ImageHeading, b.images, r4);
      assert r4 == Section(NoteHeading, b.notes) + [];
      TakeSectionOf(NoteHeading, b.notes, []);
    }
  }

  /** The export read back after its header recovers the shapes' buckets. */
  lemma MarkdownReadsBack(shapes: seq<Shape>, name: string, savedAt: string)
    ensures ReadBody(Lines(shapes, name, savedAt)[4..]) == Some(Bucketize(shapes))
  {
    BulletsWellFormed(shapes);
    ReadBodyOf(Bucketize(shapes));
    assert Lines(shapes, name, savedAt)[4..] == Body(Bucketize(shapes));
  }

  /** One text shape followed by one note shape gives a text section and a
      notes section, one bullet each, in that order. */
  lemma TextThenNote(t: string, n: string, name: string, savedAt: string)
    requires t != "" && n != ""
    ensures Lines([Shape("text", Props(RichText.NotObject, Some(t), None, None)),
                   Shape("note", Props(RichText.NotObject, Some(n), None, None))], name, savedAt)
      == Header(name, savedAt) + [TextHeading, "", Bullet(t), "", NoteHeading, "", NoteBullet(n), ""]
  {
    var s1 := Shape("text", Props(RichText.NotObject, Some(t), None, None));
    var s2 := Shape("note", Props(RichText.NotObject, Some(n), None, None));
    assert [s1, s2][..1] == [s1];
    assert [s1][..0] == [];
    assert TextOf(s1.props) == t && TextOf(s2.props) == n;
    var b1 := Buckets([Bullet(t)], [], [], []);
    var b2 := Buckets([Bullet(t)], [], [], [NoteBullet(n)]);
    assert AddShape(NoBullets, s1) == b1;
    assert Bucketize([s1]) == b1;
    assert AddShape(b1, s2) == b2;
    assert Bucketize([s1, s2]) == b2;
    assert Body(b2) == [TextHeading, "", Bullet(t), "", NoteHeading, "", NoteBullet(n), ""];
  }
}
