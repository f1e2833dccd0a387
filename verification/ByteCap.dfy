/** The response fields of a debate turn: the longest prefix of the response whose UTF-8 form
    (RFC 3629, section 3) fits a byte cap, found by binary search. */
module ByteCap {
  import opened Utf16
  import opened Wrappers

  const DEFAULT_RESPONSE_CAP := 16_384
  const MAX_RESPONSE_CAP := 24_576

  predicate IsHigh(c: CodeUnit) {
    0xD800 <= c <= 0xDBFF
  }

  predicate IsLow(c: CodeUnit) {
    0xDC00 <= c <= 0xDFFF
  }

  /** Bytes of one unit on its own; a lone surrogate is encoded as U+FFFD. */
  function UnitBytes(c: CodeUnit): (n: nat)
    ensures 1 <= n <= 3
  {
    if c < 0x80 then 1 else if c < 0x800 then 2 else 3
  }

  predicate StartsPair(t: Text) {
    |t| >= 2 && IsHigh(t[0]) && IsLow(t[1])
  }

  /** `Buffer.byteLength(t, 'utf-8')`. */
  function ByteLength(t: Text): nat {
    if t == [] then 0
    else if StartsPair(t) then 4 + ByteLength(t[2..])
    else UnitBytes(t[0]) + ByteLength(t[1..])
  }

  // ---- the encoding itself ----

  /** The Unicode scalar values of a text; a lone surrogate stands for U+FFFD. */
  function Scalars(t: Text): (r: seq<nat>)
    ensures forall i :: 0 <= i < |r| ==> r[i] < 0x11_0000
  {
    if t == [] then []
    else if StartsPair(t) then
      [0x1_0000 + (t[0] as nat - 0xD800) * 0x400 + (t[1] as nat - 0xDC00)] + Scalars(t[2..])
    else [if IsHigh(t[0]) || IsLow(t[0]) then 0xFFFD else t[0] as nat] + Scalars(t[1..])
  }

  /** The bytes of one scalar value: its bits in groups of six behind a head that tells how many bytes follow. */
  function Encode(v: nat): (bytes: seq<nat>)
    requires v < 0x11_0000
    ensures forall i :: 0 <= i < |bytes| ==> bytes[i] < 0x100
  {
    var u := v / 0x40;
    var w := u / 0x40;
    if v < 0x80 then [v]
    else if v < 0x800 then [0xC0 + u, 0x80 + v % 0x40]
    else if v < 0x1_0000 then [0xE0 + w, 0x80 + u % 0x40, 0x80 + v % 0x40]
    else [0xF0 + w / 0x40, 0x80 + w % 0x40, 0x80 + u % 0x40, 0x80 + v % 0x40]
  }

  function EncodeAll(values: seq<nat>): seq<nat>
    requires forall i :: 0 <= i < |values| ==> values[i] < 0x11_0000
  {
    if values == [] then [] else Encode(values[0]) + EncodeAll(values[1..])
  }

  predicate IsFollowing(b: nat) {
    0x80 <= b < 0xC0
  }

  /** The first scalar value of some bytes and how many it takes. A value in more bytes than it needs is refused. */
  function DecodeOne(bytes: seq<nat>): Option<(nat, nat)> {
    if bytes == [] then None
    else
      var b := bytes[0];
      if b < 0x80 then Some((b, 1))
      else if 0xC0 <= b < 0xE0 && |bytes| >= 2 && IsFollowing(bytes[1]) then
        var v := (b - 0xC0) * 0x40 + (bytes[1] - 0x80);
        if v >= 0x80 then Some((v, 2)) else None
      else if 0xE0 <= b < 0xF0 && |bytes| >= 3 && IsFollowing(bytes[1]) && IsFollowing(bytes[2]) then
        var v := ((b - 0xE0) * 0x40 + (bytes[1] - 0x80)) * 0x40 + (bytes[2] - 0x80);
        if v >= 0x800 then Some((v, 3)) else None
      else if 0xF0 <= b < 0xF8 && |bytes| >= 4 && IsFollowing(bytes[1]) && IsFollowing(bytes[2]) && IsFollowing(bytes[3]) then
        var v := (((b - 0xF0) * 0x40 + (bytes[1] - 0x80)) * 0x40 + (bytes[2] - 0x80)) * 0x40 + (bytes[3] - 0x80);
        if 0x1_0000 <= v < 0x11_0000 then Some((v, 4)) else None
      else None
  }

  lemma DecodeEncode(v: nat, rest: seq<nat>)
    requires v < 0x11_0000
    ensures DecodeOne(Encode(v) + rest) == Some((v, |Encode(v)|))
  {
    var bytes, u := Encode(v) + rest, v / 0x40;
    var w := u / 0x40;
    assert forall i :: 0 <= i < |Encode(v)| ==> bytes[i] == Encode(v)[i];
    assert v == u * 0x40 + v % 0x40 && u == w * 0x40 + u % 0x40 && w == w / 0x40 * 0x40 + w % 0x40;
    if v < 0x80 {
    } else if v < 0x800 {
      assert bytes[0] == 0xC0 + u && bytes[1] == 0x80 + v % 0x40;
    } else if v < 0x1_0000 {
      assert bytes[0] == 0xE0 + w && bytes[1] == 0x80 + u % 0x40 && bytes[2] == 0x80 + v % 0x40;
    } else {
      assert bytes[0] == 0xF0 + w / 0x40 && bytes[1] == 0x80 + w % 0x40;
      assert bytes[2] == 0x80 + u % 0x40 && bytes[3] == 0x80 + v % 0x40;
    }
  }

  function DecodeAll(bytes: seq<nat>): Option<seq<nat>>
    decreases |bytes|
  {
    if bytes == [] then Some([])
    else
      match DecodeOne(bytes)
      case None => None
      case Some((v, n)) =>
        if n == 0 || n > |bytes| then None
        else
          var rest := DecodeAll(bytes[n..]);
          if rest.Some? then Some([v] + rest.value) else None
  }

  /** What is encoded is decoded again, by a decoder that takes no value in more bytes than it needs. */
  lemma {:induction false} DecodeEncodeAll(values: seq<nat>)
    requires forall i :: 0 <= i < |values| ==> values[i] < 0x11_0000
    ensures DecodeAll(EncodeAll(values)) == Some(values)
  {
    if values != [] {
      DecodeEncodeAll(values[1..]);
      var head, rest := Encode(values[0]), EncodeAll(values[1..]);
      DecodeEncode(values[0], rest);
      assert head != [];
      hide Encode, DecodeOne;
      assert (head + rest)[|head|..] == rest;
      assert EncodeAll(values) == head + rest;
      assert [values[0]] + values[1..] == values;
    }
  }

  /** The byte length is the number of bytes of the encoding. */
  lemma {:induction false} ByteLengthIs(t: Text)
    ensures ByteLength(t) == |EncodeAll(Scalars(t))|
  {
    if t == [] {
    } else if StartsPair(t) {
      ByteLengthIs(t[2..]);
      assert Scalars(t)[1..] == Scalars(t[2..]);
    } else {
      ByteLengthIs(t[1..]);
      assert Scalars(t)[1..] == Scalars(t[1..]);
    }
  }

  /** What one more unit adds: a low surrogate completes the pair its predecessor opened. */
  function Added(t: Text, c: CodeUnit): (n: nat)
    ensures n >= 1
  {
    if t != [] && IsHigh(t[|t| - 1]) && IsLow(c) then 1 else UnitBytes(c)
  }

  lemma {:induction false} OneMoreUnit(t: Text, c: CodeUnit)
    ensures ByteLength(t + [c]) == ByteLength(t) + Added(t, c)
  {
    if |t| == 0 {
      assert (t + [c])[1..] == [];
    } else if |t| == 1 {
      assert (t + [c])[1..] == [c] && [c][1..] == [] && t[1..] == [];
      assert StartsPair(t + [c]) ==> (t + [c])[2..] == [];
    } else if StartsPair(t) {
      assert (t + [c])[2..] == t[2..] + [c];
      OneMoreUnit(t[2..], c);
    } else {
      assert (t + [c])[1..] == t[1..] + [c];
      OneMoreUnit(t[1..], c);
    }
  }

  /** Longer prefixes take more bytes. */
  lemma {:induction false} PrefixesGrow(t: Text, i: nat, j: nat)
    requires i <= j <= |t|
    ensures ByteLength(t[..i]) + (j - i) <= ByteLength(t[..j])
    decreases j - i
  {
    if i < j {
      PrefixesGrow(t, i, j - 1);
      assert t[..j] == t[..j - 1] + [t[j - 1]];
      OneMoreUnit(t[..j - 1], t[j - 1]);
    }
  }

  /** `n` is where a cap of `cap` bytes cuts `t`. */
  ghost predicate CutAt(t: Text, cap: nat, n: nat) {
    && n <= |t|
    && ByteLength(t[..n]) <= cap
    && (n < |t| ==> ByteLength(t[..n + 1]) > cap)
  }

  /** The cut is the only longest prefix that fits. */
  lemma CutIsLongest(t: Text, cap: nat, n: nat, k: nat)
    requires CutAt(t, cap, n) && k <= |t|
    ensures ByteLength(t[..k]) <= cap <==> k <= n
  {
    if k <= n {
      PrefixesGrow(t, k, n);
    } else {
      PrefixesGrow(t, n + 1, k);
    }
  }

  /** The cut splits a surrogate pair exactly when the cap ends three bytes into it. */
  lemma CutSplitsPairIff(t: Text, cap: nat, n: nat, i: nat)
    requires CutAt(t, cap, n) && i + 1 < |t| && IsHigh(t[i]) && IsLow(t[i + 1])
    ensures n == i + 1 <==> cap == ByteLength(t[..i]) + 3
  {
    assert t[..i + 1] == t[..i] + [t[i]] && t[..i + 2] == t[..i + 1] + [t[i + 1]];
    OneMoreUnit(t[..i], t[i]);
    OneMoreUnit(t[..i + 1], t[i + 1]);
    CutIsLongest(t, cap, n, i);
    CutIsLongest(t, cap, n, i + 1);
    CutIsLongest(t, cap, n, i + 2);
  }

  datatype Fields = Fields(
    response: Text,
    responseTruncated: bool,
    responseBytes: nat,
    responseCap: nat,
    responseFile: Option<string>)

  /** The cap a turn runs under. */
  function ResponseCap(option: Option<int>): (cap: nat)
    ensures 1 <= cap <= MAX_RESPONSE_CAP
    ensures option.Some? && 1 <= option.value <= MAX_RESPONSE_CAP ==> cap == option.value
    ensures cap <= 24_576 && (option.None? || option.value <= 0 ==> cap == 16_384)
  {
    var asked := if option.Some? && option.value > 0 then option.value else DEFAULT_RESPONSE_CAP;
    if asked < MAX_RESPONSE_CAP then asked else MAX_RESPONSE_CAP
  }

  /** An option that was given and is not the empty string. */
  predicate Given(option: Option<string>) {
    option.Some? && option.value != ""
  }

  /** `(a + b) >>> 1` on 32-bit unsigned words. */
  function HalfSum(a: nat, b: nat): nat {
    (a + b) % 0x1_0000_0000 / 2
  }

  /** The binary search for the cut. */
  method Cut(text: Text, cap: nat) returns (lo: nat)
    requires |text| < 0x8000_0000
    ensures CutAt(text, cap, lo)
  {
    var hi := |text|;
    lo := 0;
    assert text[..0] == [];
    while lo < hi
      invariant 0 <= lo <= hi <= |text|
      invariant ByteLength(text[..lo]) <= cap
      invariant hi < |text| ==> ByteLength(text[..hi + 1]) > cap
    {
      var mid := HalfSum(lo, hi + 1);
      assert lo < mid <= hi;
      if ByteLength(text[..mid]) <= cap {
        lo := mid;
      } else {
        hi := mid - 1;
      }
    }
  }

  /** The fields of one response. `written` is what this call writes to `automatic`. */
  method BuildResponseOutput(responseText: Option<Text>, cap: nat, explicitOutput: Option<string>, automatic: string)
    returns (fields: Fields, written: Option<Text>)
    requires responseText.Some? ==> |responseText.value| < 0x8000_0000
    ensures var text := if responseText.Some? then responseText.value else [];
            var given := explicitOutput.Some? && explicitOutput.value != "";
            && CutAt(text, cap, |fields.response|) && fields.response <= text
            && fields.responseBytes == ByteLength(text) && fields.responseCap == cap
            && (fields.responseTruncated <==> ByteLength(text) > cap)
            && (fields.responseTruncated <==> fields.response != text)
            && (written == if fields.responseTruncated && !given then Some(text) else None)
            && (fields.responseFile.Some? <==> fields.responseTruncated || (given && text != []))
            && (fields.responseFile.Some? ==> fields.responseFile.value == if given then explicitOutput.value else automatic)
  {
    var text := if responseText.Some? then responseText.value else [];
    assert text[..|text|] == text;
    var byteLen := ByteLength(text);
    var truncated := byteLen > cap;
    var responseFile := None;
    written := None;
    if truncated && !Given(explicitOutput) {
      responseFile := Some(automatic);
      written := Some(text);
    } else if Given(explicitOutput) && |text| > 0 {
      responseFile := explicitOutput;
    }
    var sliced := text;
    if truncated {
      var lo := Cut(text, cap);
      sliced := text[..lo];
    }
    fields := Fields(sliced, truncated, byteLen, cap, responseFile);
  }
}
