/** Message content as requests carry it, and the one policy that decodes it. */
module RequestParts {
  import opened Wire
  import opened Folds

  /** One typed part; an image without a URL is malformed. */
  datatype RawPart = RawText(text: string) | RawImage(url: string) | RawUnknown

  /** A content field: absent or null, a string, typed parts, or something malformed. */
  datatype Content = Absent | Str(text: string) | Typed(parts: seq<RawPart>) | Malformed

  /** A decoded part. */
  datatype Part = Text(text: string) | Image(url: string)

  datatype ToolCall = ToolCall(id: string, name: string, args: string)

  function Decoded(p: RawPart): seq<Part> {
    match p
    case RawText(t) => if t != "" then [Text(t)] else []
    case RawImage(url) => [Image(url)]
    case RawUnknown => []
  }

  predicate PartOk(p: RawPart) {
    p.RawText? || (p.RawImage? && p.url != "")
  }

  /** Empty text decodes to nothing on every route. */
  function PartsOf(parts: seq<RawPart>): seq<Part>
    decreases |parts|
  {
    if parts == [] then [] else PartsOf(parts[..|parts| - 1]) + Decoded(parts[|parts| - 1])
  }

  predicate ContentOk(c: Content) {
    !c.Malformed? && (c.Typed? ==> forall i :: 0 <= i < |c.parts| ==> PartOk(c.parts[i]))
  }

  /** The decoded parts of well-formed content. */
  function Parts(c: Content): seq<Part> {
    match c
    case Absent => []
    case Str(t) => if t != "" then [Text(t)] else []
    case Typed(parts) => PartsOf(parts)
    case Malformed => []
  }

  /** The first part that cannot be decoded is of an unknown kind. */
  predicate FirstUnknown(c: Content) {
    c.Typed? && exists i :: 0 <= i < |c.parts| && c.parts[i].RawUnknown? && forall j :: 0 <= j < i ==> PartOk(c.parts[j])
  }

  /** What is wrong with content that cannot be decoded. */
  function ContentFailure(c: Content): Failure {
    if FirstUnknown(c) then Unsupported else Translation
  }

  /** What is wrong with a message that is refused: its role or a part is unknown, or else it cannot be represented. */
  function MessageFailure(m: ChatMessage): Failure {
    if !KnownRole(m.role) || FirstUnknown(m.content) then Unsupported else Translation
  }

  lemma OnlyUnknown(c: Content, n: nat)
    requires c.Typed? && n < |c.parts| && !PartOk(c.parts[n]) && forall j :: 0 <= j < n ==> PartOk(c.parts[j])
    ensures FirstUnknown(c) <==> c.parts[n].RawUnknown?
  {
  }

  method DecodeContent(c: Content) returns (r: Result<seq<Part>, Failure>)
    ensures r.Ok? <==> ContentOk(c)
    ensures r.Ok? ==> r.value == Parts(c)
    ensures r.Err? ==> r.error == ContentFailure(c)
  {
    match c
    case Absent => r := Ok([]);
    case Str(t) => r := Ok(if t == "" then [] else [Text(t)]);
    case Malformed => r := Err(Translation);
    case Typed(parts) =>
      var out := [];
      for n := 0 to |parts|
        invariant forall i :: 0 <= i < n ==> PartOk(parts[i])
        invariant out == PartsOf(parts[..n])
      {
        var p := parts[n];
        assert parts[..n + 1][..n] == parts[..n];
        if !PartOk(p) {
          OnlyUnknown(c, n);
        }
        if p.RawUnknown? {
          return Err(Unsupported);
        }
        if p.RawImage? && p.url == "" {
          return Err(Translation);
        }
        if p.RawImage? {
          out := out + [Image(p.url)];
        } else if p.text != "" {
          out := out + [Text(p.text)];
        }
      }
      assert parts[..|parts|] == parts;
      r := Ok(out);
  }

  predicate HasImage(parts: seq<Part>) {
    exists i :: 0 <= i < |parts| && parts[i].Image?
  }

  function JoinTexts(parts: seq<Part>): string
    decreases |parts|
  {
    if parts == [] then ""
    else
      var p := parts[|parts| - 1];
      JoinTexts(parts[..|parts| - 1]) + if p.Text? then p.text else ""
  }

  predicate KnownRole(role: string) {
    role == "system" || role == "developer" || role == "user" || role == "assistant" || role == "tool"
  }

  predicate IsSystem(role: string) {
    role == "system" || role == "developer"
  }

  /** One Chat Completions message. */
  datatype ChatMessage = ChatMessage(role: string, content: Content, toolCalls: seq<ToolCall>, toolCallId: string)

  /** One Responses input item. */
  datatype InputItem =
    | MessageIn(role: string, content: Content)
    | CallIn(callId: string, name: string, args: string)
    | ResultIn(callId: string, output: string)
    | ReasoningIn(summary: seq<string>)
    | UnknownIn

  /** A decoded part as a typed part again. */
  function Encoded(p: Part): RawPart {
    match p
    case Text(t) => RawText(t)
    case Image(url) => RawImage(url)
  }

  function EncodedAll(parts: seq<Part>): seq<RawPart> {
    seq(|parts|, i requires 0 <= i < |parts| => Encoded(parts[i]))
  }

  /** What decoding produces: no empty text, no empty URL. */
  predicate Clean(parts: seq<Part>) {
    forall i :: 0 <= i < |parts| ==> if parts[i].Text? then parts[i].text != "" else parts[i].url != ""
  }

  lemma {:induction false} PartsAreClean(c: Content)
    requires ContentOk(c)
    ensures Clean(Parts(c))
  {
    if c.Typed? {
      PartsOfClean(c.parts);
    }
  }

  lemma {:induction false} PartsOfClean(parts: seq<RawPart>)
    requires forall i :: 0 <= i < |parts| ==> PartOk(parts[i])
    ensures Clean(PartsOf(parts))
    decreases |parts|
  {
    if parts != [] {
      PartsOfClean(parts[..|parts| - 1]);
      assert PartOk(parts[|parts| - 1]);
    }
  }

  /** Decoding is the inverse of encoding on clean parts. */
  lemma {:induction false} DecodeEncoded(parts: seq<Part>)
    requires Clean(parts)
    ensures ContentOk(Typed(EncodedAll(parts))) && Parts(Typed(EncodedAll(parts))) == parts
    decreases |parts|
  {
    if parts != [] {
      var n := |parts| - 1;
      DecodeEncoded(parts[..n]);
      assert EncodedAll(parts)[..n] == EncodedAll(parts[..n]);
      assert parts == parts[..n] + [parts[n]];
    }
  }

  lemma PartsOfNext(parts: seq<RawPart>, p: RawPart)
    ensures PartsOf(parts + [p]) == PartsOf(parts) + Decoded(p)
  {
    assert (parts + [p])[..|parts|] == parts;
  }

  lemma PartsOfOne(p: RawPart)
    ensures PartsOf([p]) == Decoded(p)
  {
    assert [p][..0] == [];
    assert [] + Decoded(p) == Decoded(p);
  }

  lemma {:induction false} PartsOfAppend(a: seq<RawPart>, b: seq<RawPart>)
    ensures PartsOf(a + b) == PartsOf(a) + PartsOf(b)
    decreases |b|
  {
    if b == [] {
      assert a + b == a && PartsOf(a) + [] == PartsOf(a);
    } else {
      var n := |b| - 1;
      Last(b);
      PartsOfAppend(a, b[..n]);
      Assoc(a, b[..n], [b[n]]);
      PartsOfNext(a + b[..n], b[n]);
      Assoc(PartsOf(a), PartsOf(b[..n]), Decoded(b[n]));
    }
  }

  /** What content says: a string itself, typed parts one after the other, and in neither the empty text. */
  lemma {:induction false} PartsTell(a: seq<RawPart>, b: seq<RawPart>, t: string, url: string)
    ensures Parts(Str(t)) == (if t == "" then [] else [Text(t)]) && Parts(Typed([RawText(t)])) == Parts(Str(t))
    ensures Parts(Typed([RawImage(url)])) == [Image(url)] && Parts(Absent) == Parts(Typed([])) == []
    ensures Parts(Typed(a + b)) == Parts(Typed(a)) + Parts(Typed(b))
  {
    PartsOfAppend(a, b);
    PartsOfOne(RawText(t));
    PartsOfOne(RawImage(url));
  }

  lemma JoinTextsNext(parts: seq<Part>, p: Part)
    ensures JoinTexts(parts + [p]) == JoinTexts(parts) + if p.Text? then p.text else ""
  {
    assert (parts + [p])[..|parts|] == parts;
  }

  lemma {:induction false} JoinTextsAppend(a: seq<Part>, b: seq<Part>)
    ensures JoinTexts(a + b) == JoinTexts(a) + JoinTexts(b)
    decreases |b|
  {
    if b == [] {
      assert a + b == a && JoinTexts(a) + "" == JoinTexts(a);
    } else {
      var n := |b| - 1;
      Last(b);
      JoinTextsAppend(a, b[..n]);
      Assoc(a, b[..n], [b[n]]);
      JoinTextsNext(a + b[..n], b[n]);
      Assoc(JoinTexts(a), JoinTexts(b[..n]), if b[n].Text? then b[n].text else "");
    }
  }

  /** Joining text keeps all of it in order, and nothing of the images. */
  lemma {:induction false} JoinTextsTell(a: seq<Part>, b: seq<Part>, t: string, url: string)
    ensures JoinTexts([Text(t)]) == t && JoinTexts([Image(url)]) == "" && JoinTexts([]) == ""
    ensures JoinTexts(a + b) == JoinTexts(a) + JoinTexts(b)
  {
    JoinTextsAppend(a, b);
    JoinTextsNext([], Text(t));
    JoinTextsNext([], Image(url));
    assert [] + [Text(t)] == [Text(t)] && [] + [Image(url)] == [Image(url)] && "" + t == t;
  }

  // ---- which content is accepted ----

  /** Absent, a string, or typed parts that are text or images with a URL. */
  predicate Readable(c: Content) {
    match c
    case Typed(parts) => forall i :: 0 <= i < |parts| ==> parts[i].RawText? || (parts[i].RawImage? && parts[i].url != "")
    case Malformed => false
    case _ => true
  }

  /** Absent, a string, or typed parts that are all text. */
  predicate TextOnly(c: Content) {
    match c
    case Typed(parts) => forall i :: 0 <= i < |parts| ==> parts[i].RawText?
    case Malformed => false
    case _ => true
  }

  lemma HasImageNext(parts: seq<Part>, more: seq<Part>)
    ensures HasImage(parts + more) <==> HasImage(parts) || HasImage(more)
  {
    var all := parts + more;
    assert forall i :: 0 <= i < |parts| ==> all[i] == parts[i];
    assert forall i :: 0 <= i < |more| ==> all[|parts| + i] == more[i];
  }

  predicate HasRawImage(parts: seq<RawPart>) {
    exists i :: 0 <= i < |parts| && parts[i].RawImage?
  }

  lemma HasRawImageNext(parts: seq<RawPart>, n: nat)
    requires n == |parts| - 1
    ensures HasRawImage(parts) <==> HasRawImage(parts[..n]) || parts[n].RawImage?
  {
    assert forall i :: 0 <= i < n ==> parts[..n][i] == parts[i];
  }

  lemma {:induction false} ImagesAreRaw(parts: seq<RawPart>)
    ensures HasImage(PartsOf(parts)) <==> HasRawImage(parts)
    decreases |parts|
  {
    if parts != [] {
      var n := |parts| - 1;
      ImagesAreRaw(parts[..n]);
      HasImageNext(PartsOf(parts[..n]), Decoded(parts[n]));
      HasRawImageNext(parts, n);
      DecodedImage(parts[n]);
    }
  }

  lemma DecodedImage(p: RawPart)
    ensures HasImage(Decoded(p)) <==> p.RawImage?
  {
    if p.RawImage? {
      assert Decoded(p)[0].Image?;
    }
  }

  /** Content is accepted exactly when it can be read, and where only text goes, exactly when it is all text. */
  lemma {:induction false} ReadableIff(c: Content)
    ensures ContentOk(c) <==> Readable(c)
    ensures ContentOk(c) && !HasImage(Parts(c)) <==> TextOnly(c)
  {
    if c.Typed? {
      ImagesAreRaw(c.parts);
    }
  }
}
