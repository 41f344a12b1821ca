/**
 The parser for `git cat-file --batch` output.  Bytes are characters; those from 128 on
 are not ASCII.
 */
module BlobFrames {
  import opened Wrappers
  import opened Texts

  datatype FrameError = InspectionFailed | NotAscii | BadNumber | UnknownId | SizeChanged

  // ---------- Python's text primitives ----------

  predicate IsAscii(s: string) {
    forall i | 0 <= i < |s| :: s[i] as int < 128
  }

  /** What `str.split()` splits ASCII text at. */
  predicate Separates(c: char) {
    9 <= c as int <= 13 || 28 <= c as int <= 32
  }

  function WordLength(s: string): (n: nat)
    ensures n <= |s|
    ensures forall i | 0 <= i < n :: !Separates(s[i])
    ensures n < |s| ==> Separates(s[n])
  {
    if s == "" || Separates(s[0]) then 0 else 1 + WordLength(s[1..])
  }

  /** `split()` */
  function Words(s: string): seq<string>
    decreases |s|
  {
    if s == "" then []
    else if Separates(s[0]) then Words(s[1..])
    else [s[..WordLength(s)]] + Words(s[WordLength(s)..])
  }

  /** Digits with single underscores between them. */
  predicate IsNumeral(s: string) {
    && s != "" && s[0] != '_' && s[|s| - 1] != '_'
    && (forall i | 0 <= i < |s| :: IsDigit(s[i]) || s[i] == '_')
    && (forall i | 0 <= i < |s| - 1 :: !(s[i] == '_' && s[i + 1] == '_'))
  }

  function WithoutUnderscores(s: string): (r: string)
    ensures (forall i | 0 <= i < |s| :: IsDigit(s[i]) || s[i] == '_') ==> forall i | 0 <= i < |r| :: IsDigit(r[i])
  {
    if s == "" then ""
    else WithoutUnderscores(s[..|s| - 1]) + if s[|s| - 1] == '_' then "" else [s[|s| - 1]]
  }

  function Signed(sign: char, n: nat): int {
    if sign == '-' then 0 - n else n
  }

  /** `int(text)`, for text without surrounding space. */
  function ParseInt(s: string): Option<int> {
    if s != "" && (s[0] == '+' || s[0] == '-') then
      if IsNumeral(s[1..])
      then Some(Signed(s[0], Value(WithoutUnderscores(s[1..]))))
      else None
    else if IsNumeral(s) then Some(Value(WithoutUnderscores(s)))
    else None
  }

  /** `find(b"\n", 0)`; the length of the text when there is none. */
  function FindNewline(s: string): (n: nat)
    ensures n <= |s| && (forall i | 0 <= i < n :: s[i] != '\n') && (n < |s| ==> s[n] == '\n')
  {
    if s == "" || s[0] == '\n' then 0 else 1 + FindNewline(s[1..])
  }

  // ---------- The format ----------

  /** A header line, without its newline, that names a blob of `size` bytes. */
  predicate IsHeader(header: string, id: string, size: nat) {
    && '\n' !in header && IsAscii(header)
    && |Words(header)| == 3 && Words(header)[0] == id && Words(header)[1] == "blob"
    && ParseInt(Words(header)[2]) == Some(size)
  }

  /** The output begins with one frame an id: header, newline, the content, newline. */
  ghost predicate Framed(out: string, ids: seq<string>, sizes: map<string, nat>, contents: seq<string>)
    decreases ids
  {
    if ids == [] then contents == []
    else
      && contents != [] && ids[0] in sizes && sizes[ids[0]] == |contents[0]|
      && exists header :: FrameAt(out, header, ids[0], contents[0])
                          && Framed(out[|header| + |contents[0]| + 2..], ids[1..], sizes, contents[1..])
  }

  ghost predicate FrameAt(out: string, header: string, id: string, content: string) {
    IsHeader(header, id, |content|) && header + "\n" + content + "\n" <= out
  }

  /** What git prints for these blobs. */
  function Printed(ids: seq<string>, contents: seq<string>): string
    requires |ids| == |contents|
  {
    if ids == [] then ""
    else ids[0] + " blob " + Decimal(|contents[0]|) + "\n" + contents[0] + "\n" + Printed(ids[1..], contents[1..])
  }

  predicate IsObjectId(id: string) {
    id != "" && forall i | 0 <= i < |id| :: IsDigit(id[i]) || 'a' <= id[i] <= 'f'
  }

  // ---------- The parser ----------

  function ParseHeader(header: string, id: string, sizes: map<string, nat>): Result<nat, FrameError> {
    if !IsAscii(header) then Err(NotAscii)
    else
      var words := Words(header);
      if |words| != 3 || words[0] != id || words[1] != "blob" then Err(InspectionFailed)
      else if ParseInt(words[2]).None? then Err(BadNumber)
      else if id !in sizes then Err(UnknownId)
      else if ParseInt(words[2]) != Some(sizes[id]) then Err(SizeChanged)
      else Ok(sizes[id])
  }

  /** The content of the frame at the start of the output. */
  function FirstFrame(out: string, id: string, sizes: map<string, nat>): (r: Result<string, FrameError>)
    ensures r.Ok? ==> FindNewline(out) + |r.value| + 2 <= |out|
  {
    var end := FindNewline(out);
    if end == |out| then Err(InspectionFailed)
    else
      var size :- ParseHeader(out[..end], id, sizes);
      var stop := end + 1 + size;
      if stop >= |out| || out[stop] != '\n' then Err(InspectionFailed) else Ok(out[end + 1..stop])
  }

  function Prepend(done: seq<string>, rest: Result<seq<string>, FrameError>): Result<seq<string>, FrameError> {
    if rest.Ok? then Ok(done + rest.value) else rest
  }

  /** The contents `_batch_blobs` extracts, in the order of the ids. */
  function Parse(out: string, ids: seq<string>, sizes: map<string, nat>): Result<seq<string>, FrameError>
    decreases ids
  {
    if ids == [] then Ok([])
    else
      match FirstFrame(out, ids[0], sizes)
      case Err(e) => Err(e)
      case Ok(content) => Prepend([content], Parse(out[FindNewline(out) + |content| + 2..], ids[1..], sizes))
  }

  function Dictionary(ids: seq<string>, contents: seq<string>): map<string, string>
    requires |ids| == |contents|
  {
    if ids == [] then map[]
    else Dictionary(ids[..|ids| - 1], contents[..|ids| - 1])[ids[|ids| - 1] := contents[|ids| - 1]]
  }

  /** `_batch_blobs` on what the process printed. */
  method BatchBlobs(out: string, ids: seq<string>, sizes: map<string, nat>)
    returns (r: Result<map<string, string>, FrameError>)
    ensures Parse(out, ids, sizes).Ok? ==>
      |Parse(out, ids, sizes).value| == |ids| && r == Ok(Dictionary(ids, Parse(out, ids, sizes).value))
    ensures Parse(out, ids, sizes).Err? ==> r == Err(Parse(out, ids, sizes).error)
  {
    hide ParseHeader, Parse, FindNewline;
    ParseLength(out, ids, sizes);
    var blobs: map<string, string> := map[];
    var offset := 0;
    ghost var done: seq<string> := [];
    assert out[0..] == out && ids[0..] == ids;
    assert Parse(out, ids, sizes) == Prepend(done, Parse(out[offset..], ids[0..], sizes)) by {
      PrependNothing(Parse(out, ids, sizes));
    }
    for k := 0 to |ids|
      invariant offset <= |out| && |done| == k && blobs == Dictionary(ids[..k], done)
      invariant Parse(out, ids, sizes) == Prepend(done, Parse(out[offset..], ids[k..], sizes))
    {
      ParseStep(out[offset..], ids[k..], sizes);
      assert ids[k..][0] == ids[k] && ids[k..][1..] == ids[k + 1..];
      var end := FindNewline(out[offset..]);
      if offset + end == |out| {
        return Err(InspectionFailed);
      }
      var size :- ParseHeader(out[offset..][..end], ids[k], sizes);
      var start := offset + end + 1;
      var stop := start + size;
      if stop >= |out| || out[stop] != '\n' {
        return Err(InspectionFailed);
      }
      assert out[offset..][end + 1..end + 1 + size] == out[start..stop];
      assert out[offset..][end + size + 2..] == out[stop + 1..];
      PrependTwice(done, out[start..stop], Parse(out[stop + 1..], ids[k + 1..], sizes));
      assert ids[..k + 1][..k] == ids[..k] && (done + [out[start..stop]])[..k] == done;
      blobs := blobs[ids[k] := out[start..stop]];
      done := done + [out[start..stop]];
      offset := stop + 1;
    }
    ParseNone(out[offset..], sizes);
    assert ids[..|ids|] == ids && ids[|ids|..] == [] && done + [] == done;
    return Ok(blobs);
  }

  lemma PrependNothing(rest: Result<seq<string>, FrameError>)
    ensures Prepend([], rest) == rest
  {
    if rest.Ok? { assert [] + rest.value == rest.value; }
  }

  lemma PrependTwice(done: seq<string>, content: string, rest: Result<seq<string>, FrameError>)
    ensures Prepend(done, Prepend([content], rest)) == Prepend(done + [content], rest)
  {
    if rest.Ok? { assert done + ([content] + rest.value) == done + [content] + rest.value; }
  }

  /** One frame. */
  lemma ParseStep(out: string, ids: seq<string>, sizes: map<string, nat>)
    requires ids != []
    ensures var first := FirstFrame(out, ids[0], sizes);
      Parse(out, ids, sizes) ==
        if first.Err? then Err(first.error)
        else Prepend([first.value], Parse(out[FindNewline(out) + |first.value| + 2..], ids[1..], sizes))
  {
    hide FirstFrame, FindNewline, Prepend;
  }

  // ---------- The parser undoes the format ----------

  lemma ParseNone(out: string, sizes: map<string, nat>)
    ensures Parse(out, [], sizes) == Ok([])
  {
  }

  lemma {:induction false} ParseLength(out: string, ids: seq<string>, sizes: map<string, nat>)
    ensures Parse(out, ids, sizes).Ok? ==> |Parse(out, ids, sizes).value| == |ids|
    decreases ids
  {
    hide Parse, FirstFrame, FindNewline;
    if ids == [] {
      ParseNone(out, sizes);
    } else if Parse(out, ids, sizes).Ok? {
      ParseStep(out, ids, sizes);
      var first := FirstFrame(out, ids[0], sizes).value;
      ParseLength(out[FindNewline(out) + |first| + 2..], ids[1..], sizes);
    }
  }

  lemma HeaderIff(header: string, id: string, sizes: map<string, nat>)
    requires '\n' !in header
    ensures ParseHeader(header, id, sizes).Ok? <==> id in sizes && IsHeader(header, id, sizes[id])
    ensures ParseHeader(header, id, sizes).Ok? ==> ParseHeader(header, id, sizes).value == sizes[id]
  {
    hide Words, ParseInt, IsAscii;
  }

  lemma FramedNone(out: string, sizes: map<string, nat>, contents: seq<string>)
    ensures Framed(out, [], sizes, contents) <==> contents == []
  {
  }

  lemma FramedUncons(out: string, ids: seq<string>, sizes: map<string, nat>, contents: seq<string>)
    returns (header: string)
    requires ids != [] && Framed(out, ids, sizes, contents)
    ensures contents != [] && ids[0] in sizes && sizes[ids[0]] == |contents[0]|
            && FrameAt(out, header, ids[0], contents[0])
    ensures |header| + |contents[0]| + 2 <= |out|
    ensures Framed(out[|header| + |contents[0]| + 2..], ids[1..], sizes, contents[1..])
  {
    hide IsHeader;
    header :| FrameAt(out, header, ids[0], contents[0])
              && Framed(out[|header| + |contents[0]| + 2..], ids[1..], sizes, contents[1..]);
  }

  lemma FramedCons(out: string, header: string, ids: seq<string>, sizes: map<string, nat>, contents: seq<string>)
    requires ids != [] && contents != [] && ids[0] in sizes && sizes[ids[0]] == |contents[0]|
    requires FrameAt(out, header, ids[0], contents[0]) && |header| + |contents[0]| + 2 <= |out|
    requires Framed(out[|header| + |contents[0]| + 2..], ids[1..], sizes, contents[1..])
    ensures Framed(out, ids, sizes, contents)
  {
    hide IsHeader;
  }

  /** The output is accepted, with these contents, exactly when it begins with frames of these contents. */
  lemma {:induction false} ParsesIffFramed(out: string, ids: seq<string>, sizes: map<string, nat>,
                                           contents: seq<string>)
    ensures Parse(out, ids, sizes) == Ok(contents) <==> Framed(out, ids, sizes, contents)
    decreases ids
  {
    if ids == [] {
      ParseNone(out, sizes);
      FramedNone(out, sizes, contents);
    } else {
      if Parse(out, ids, sizes) == Ok(contents) { ParsedIsFramed(out, ids, sizes, contents); }
      if Framed(out, ids, sizes, contents) { FramedParses(out, ids, sizes, contents); }
    }
  }

  lemma {:induction false} FramedParses(out: string, ids: seq<string>, sizes: map<string, nat>, contents: seq<string>)
    requires Framed(out, ids, sizes, contents)
    ensures Parse(out, ids, sizes) == Ok(contents)
    decreases ids
  {
    hide ParseHeader, IsHeader, Parse, FindNewline, Framed;
    if ids == [] {
      ParseNone(out, sizes);
      FramedNone(out, sizes, contents);
    } else {
      var header := FramedUncons(out, ids, sizes, contents);
      var stop := |header| + 1 + |contents[0]|;
      FramedParses(out[stop + 1..], ids[1..], sizes, contents[1..]);
      HeaderEnds(out, header, ids[0], contents[0]);
      HeaderIff(header, ids[0], sizes);
      ParseStep(out, ids, sizes);
      assert contents == [contents[0]] + contents[1..];
    }
  }

  lemma {:induction false} ParsedIsFramed(out: string, ids: seq<string>, sizes: map<string, nat>, contents: seq<string>)
    requires Parse(out, ids, sizes) == Ok(contents)
    ensures Framed(out, ids, sizes, contents)
    decreases ids
  {
    hide ParseHeader, IsHeader, Parse, FindNewline, Framed;
    if ids == [] {
      ParseNone(out, sizes);
      FramedNone(out, sizes, contents);
    } else {
      ParseStep(out, ids, sizes);
      var header := out[..FindNewline(out)];
      HeaderIff(header, ids[0], sizes);
      var stop := |header| + 1 + sizes[ids[0]];
      var rest := Parse(out[stop + 1..], ids[1..], sizes);
      assert contents == [out[|header| + 1..stop]] + rest.value;
      assert contents[1..] == rest.value;
      ParsedIsFramed(out[stop + 1..], ids[1..], sizes, contents[1..]);
      FrameCut(out, |header|, stop, ids[0]);
      FramedCons(out, header, ids, sizes, contents);
    }
  }

  /** What is wrong at the start of this output, where the frame of `id` should be. */
  predicate Spoiled(out: string, id: string, sizes: map<string, nat>, error: FrameError) {
    var end := FindNewline(out);
    var words := Words(out[..end]);
    var named := |words| == 3 && words[0] == id && words[1] == "blob";
    match error
    case NotAscii => exists i :: 0 <= i < end && out[i] as int >= 128
    case BadNumber => named && ParseInt(words[2]).None?
    case UnknownId => named && id !in sizes
    case SizeChanged => named && id in sizes && ParseInt(words[2]) != Some(sizes[id])
    case InspectionFailed =>
      || end == |out| || !named
      || (id in sizes && (end + 1 + sizes[id] >= |out| || out[end + 1 + sizes[id]] != '\n'))
  }

  /** A refused output names its first bad frame: all before it are in order, and the error says what is wrong. */
  lemma {:induction false} FirstBadFrame(out: string, ids: seq<string>, sizes: map<string, nat>)
    returns (k: nat, offset: nat, contents: seq<string>)
    requires Parse(out, ids, sizes).Err?
    ensures k < |ids| && offset <= |out| && Framed(out, ids[..k], sizes, contents)
    ensures Spoiled(out[offset..], ids[k], sizes, Parse(out, ids, sizes).error)
    decreases ids
  {
    hide ParseHeader, IsHeader, Parse, FindNewline, Framed, Words, ParseInt, Spoiled;
    if ids == [] { ParseNone(out, sizes); }
    ParseStep(out, ids, sizes);
    var first := FirstFrame(out, ids[0], sizes);
    if first.Err? {
      k, offset, contents := 0, 0, [];
      FramedNone(out, sizes, []);
      assert ids[..0] == [] && out[0..] == out;
      FrameSpoiled(out, ids[0], sizes);
    } else {
      var header, stop := out[..FindNewline(out)], FindNewline(out) + 1 + |first.value|;
      var more, later, rest := FirstBadFrame(out[stop + 1..], ids[1..], sizes);
      k, offset, contents := more + 1, stop + 1 + later, [first.value] + rest;
      HeaderIff(header, ids[0], sizes);
      FrameCut(out, |header|, stop, ids[0]);
      assert ids[..k][0] == ids[0] && ids[..k][1..] == ids[1..][..more] && contents[1..] == rest;
      FramedCons(out, header, ids[..k], sizes, contents);
      assert out[offset..] == out[stop + 1..][later..];
    }
  }

  lemma FrameSpoiled(out: string, id: string, sizes: map<string, nat>)
    requires FirstFrame(out, id, sizes).Err?
    ensures Spoiled(out, id, sizes, FirstFrame(out, id, sizes).error)
  {
    hide Words, ParseInt, FindNewline;
  }

  lemma FrameCut(out: string, end: nat, stop: nat, id: string)
    requires end < stop < |out| && out[end] == '\n' && out[stop] == '\n'
    requires IsHeader(out[..end], id, stop - end - 1)
    ensures FrameAt(out, out[..end], id, out[end + 1..stop])
  {
    hide IsHeader;
    assert out[..end] + "\n" + out[end + 1..stop] + "\n" == out[..stop + 1];
  }

  lemma HeaderEnds(out: string, header: string, id: string, content: string)
    requires FrameAt(out, header, id, content)
    ensures IsHeader(header, id, |content|) && '\n' !in header && |header| + 1 + |content| < |out|
    ensures FindNewline(out) == |header| && out[..|header|] == header
    ensures out[|header| + 1..|header| + 1 + |content|] == content && out[|header| + 1 + |content|] == '\n'
  {
    var frame := header + "\n" + content + "\n";
    assert frame == out[..|frame|];
    assert forall i | 0 <= i < |header| :: out[i] == frame[i] == header[i];
    assert out[|header|] == frame[|header|] == '\n';
    assert out[|header| + 1..|header| + 1 + |content|] == frame[|header| + 1..|header| + 1 + |content|];
  }

  lemma {:induction false} WordEnds(w: string, rest: string)
    requires forall i | 0 <= i < |w| :: !Separates(w[i])
    requires rest == "" || Separates(rest[0])
    ensures WordLength(w + rest) == |w|
  {
    if w != "" {
      assert (w + rest)[1..] == w[1..] + rest;
      WordEnds(w[1..], rest);
    } else {
      assert w + rest == rest;
    }
  }

  predicate IsWord(w: string) {
    w != "" && forall i | 0 <= i < |w| :: !Separates(w[i])
  }

  lemma OneWord(w: string, rest: string)
    requires IsWord(w) && (rest == "" || Separates(rest[0]))
    ensures Words(w + rest) == [w] + Words(rest)
  {
    WordEnds(w, rest);
    assert (w + rest)[..|w|] == w && (w + rest)[|w|..] == rest;
  }

  lemma SpaceSkipped(rest: string)
    ensures Words(" " + rest) == Words(rest)
  {
    assert (" " + rest)[1..] == rest;
  }

  lemma {:induction false} DigitsHaveNoUnderscores(s: string)
    requires forall i | 0 <= i < |s| :: IsDigit(s[i])
    ensures WithoutUnderscores(s) == s
  {
    if s != "" { DigitsHaveNoUnderscores(s[..|s| - 1]); }
  }

  lemma DigitsAreNumeral(s: string)
    requires s != "" && forall i | 0 <= i < |s| :: IsDigit(s[i])
    ensures IsNumeral(s) && s[0] != '+' && s[0] != '-'
  {
    assert forall i | 0 <= i < |s| :: s[i] != '_' && s[i] != '+' && s[i] != '-';
  }

  lemma DigitsParse(s: string)
    requires s != "" && forall i | 0 <= i < |s| :: IsDigit(s[i])
    ensures ParseInt(s) == Some(Value(s))
  {
    hide Value, WithoutUnderscores, IsNumeral, IsDigit;
    DigitsHaveNoUnderscores(s);
    DigitsAreNumeral(s);
  }

  lemma DecimalParses(n: nat)
    ensures ParseInt(Decimal(n)) == Some(n)
  {
    DecimalValue(n);
    hide Decimal, ParseInt, Value;
    DigitsParse(Decimal(n));
  }

  lemma SignedDigits(sign: char, s: string)
    requires sign in {'+', '-'} && s != "" && forall i | 0 <= i < |s| :: IsDigit(s[i])
    ensures ParseInt([sign] + s) == Some(Signed(sign, Value(s)))
  {
    DigitsHaveNoUnderscores(s);
    DigitsAreNumeral(s);
    hide Value, WithoutUnderscores, IsNumeral, IsDigit, Signed;
    var text := [sign] + s;
    assert text[0] == sign && text[1..] == s;
  }

  /** Signs, as `int` reads them; git prints none. */
  lemma SignedParses(n: nat)
    ensures ParseInt(['-'] + Decimal(n)) == Some(0 - n) && ParseInt(['+'] + Decimal(n)) == Some(n)
  {
    DecimalValue(n);
    hide Decimal, Value, ParseInt, IsDigit;
    SignedDigits('-', Decimal(n));
    SignedDigits('+', Decimal(n));
  }

  lemma ThreeWords(a: string, b: string, c: string)
    requires IsWord(a) && IsWord(b) && IsWord(c)
    ensures Words(a + (" " + (b + (" " + c)))) == [a, b, c]
  {
    assert Separates(' ');
    hide Words, IsWord, Separates;
    OneWord(a, " " + (b + (" " + c)));
    SpaceSkipped(b + (" " + c));
    OneWord(b, " " + c);
    SpaceSkipped(c);
    assert c + "" == c;
    OneWord(c, "");
    NoWords();
  }

  lemma NoWords()
    ensures Words("") == []
  {
  }

  /** Characters of hexadecimal ids, numbers and "blob". */
  predicate IsPlain(s: string) {
    s != "" && forall i | 0 <= i < |s| :: IsDigit(s[i]) || 'a' <= s[i] <= 'z'
  }

  lemma PlainIsWord(s: string)
    requires IsPlain(s)
    ensures IsWord(s) && IsAscii(s) && '\n' !in s
  {
  }

  lemma PlainJoined(a: string, b: string, c: string)
    requires IsPlain(a) && IsPlain(b) && IsPlain(c)
    ensures var header := a + (" " + (b + (" " + c))); IsAscii(header) && '\n' !in header
  {
    var header := a + (" " + (b + (" " + c)));
    PlainIsWord(a);
    PlainIsWord(b);
    PlainIsWord(c);
    hide IsPlain;
    forall i | 0 <= i < |header| ensures (header[i] as int) < 128 && header[i] != '\n' {
      assert header[i] in a || header[i] in b || header[i] in c || header[i] == ' ';
    }
  }

  lemma HeaderPrinted(id: string, size: nat)
    requires IsObjectId(id)
    ensures IsHeader(id + " blob " + Decimal(size), id, size)
  {
    var number, blob := Decimal(size), "blob";
    DecimalValue(size);
    DecimalParses(size);
    PlainIsWord(id);
    PlainIsWord(number);
    PlainIsWord(blob);
    hide Words, ParseInt, Decimal, IsWord, IsPlain, IsObjectId, IsAscii;
    PlainJoined(id, blob, number);
    ThreeWords(id, blob, number);
    HeaderJoined(id, number);
  }

  lemma HeaderJoined(id: string, number: string)
    ensures id + " blob " + number == id + (" " + ("blob" + (" " + number)))
  {
    assert " blob " == " " + "blob" + " ";
  }

  /**
   The parser undoes the format: whatever bytes the blobs hold, newlines included, and
   whatever follows the frames, the printed frames parse to exactly those blobs.
   */
  lemma {:induction false} ParseUndoesPrinted(ids: seq<string>, contents: seq<string>, sizes: map<string, nat>,
                                              rest: string)
    requires |ids| == |contents|
    requires forall i | 0 <= i < |ids| :: IsObjectId(ids[i]) && ids[i] in sizes && sizes[ids[i]] == |contents[i]|
    ensures Parse(Printed(ids, contents) + rest, ids, sizes) == Ok(contents)
    decreases ids
  {
    if ids != [] {
      var header := ids[0] + " blob " + Decimal(|contents[0]|);
      var frame, more := header + "\n" + contents[0] + "\n", Printed(ids[1..], contents[1..]) + rest;
      var out := Printed(ids, contents) + rest;
      assert out == frame + more;
      HeaderPrinted(ids[0], |contents[0]|);
      hide IsHeader, Framed, Parse;
      assert out[|frame|..] == more && frame == out[..|frame|];
      ParseUndoesPrinted(ids[1..], contents[1..], sizes, rest);
      ParsesIffFramed(more, ids[1..], sizes, contents[1..]);
      FramedCons(out, header, ids, sizes, contents);
      ParsesIffFramed(out, ids, sizes, contents);
    }
  }

  /** For distinct ids the dictionary holds each id's own content. */
  lemma {:induction false} DictionaryHolds(ids: seq<string>, contents: seq<string>, i: nat)
    requires i < |ids| == |contents|
    requires forall j, k | 0 <= j < k < |ids| :: ids[j] != ids[k]
    ensures ids[i] in Dictionary(ids, contents) && Dictionary(ids, contents)[ids[i]] == contents[i]
    decreases |ids|
  {
    var n := |ids| - 1;
    if i < n { DictionaryHolds(ids[..n], contents[..n], i); }
  }
}
