/** Scoped IDs: a workspace name, a tilde, and the backend's ID in base64url (section 5 of RFC 4648,
    without padding). Text is modelled by its UTF-8 bytes. */
module ScopedId {
  import opened VersionedStore

  type byte = bv8
  type Text = seq<byte>

  // ----- UTF-8 (section 4 of RFC 3629) -----

  predicate Tail(b: byte) {
    0x80 <= b <= 0xBF
  }

  /** Length of the character the text starts with; 0 when it starts with none. */
  function CharLength(t: Text): nat {
    if t == [] then 0
    else if t[0] < 0x80 then 1
    else if 0xC2 <= t[0] <= 0xDF && |t| >= 2 && Tail(t[1]) then 2
    else if |t| >= 3 && Tail(t[1]) && Tail(t[2]) && Wide(t[0], t[1]) then 3
    else if |t| >= 4 && Tail(t[1]) && Tail(t[2]) && Tail(t[3]) && Widest(t[0], t[1]) then 4
    else 0
  }

  predicate Wide(a: byte, b: byte) {
    (a == 0xE0 && b >= 0xA0) || 0xE1 <= a <= 0xEC || (a == 0xED && b <= 0x9F) || 0xEE <= a <= 0xEF
  }

  predicate Widest(a: byte, b: byte) {
    (a == 0xF0 && b >= 0x90) || 0xF1 <= a <= 0xF3 || (a == 0xF4 && b <= 0x8F)
  }

  predicate Utf8(t: Text)
    decreases |t|
  {
    t == [] || (0 < CharLength(t) <= |t| && Utf8(t[CharLength(t)..]))
  }

  // ----- base64url -----

  /** Six bits. */
  type sextet = x: bv8 | x < 64 witness 0

  function Digit(n: sextet): byte {
    if n < 26 then 65 + n            // A-Z
    else if n < 52 then 97 + n - 26  // a-z
    else if n < 62 then 48 + n - 52  // 0-9
    else if n == 62 then 45          // -
    else 95                          // _
  }

  predicate IsDigit(c: byte) {
    65 <= c <= 90 || 97 <= c <= 122 || 48 <= c <= 57 || c == 45 || c == 95
  }

  function Value(c: byte): sextet {
    if 65 <= c <= 90 then c - 65
    else if 97 <= c <= 122 then c - 97 + 26
    else if 48 <= c <= 57 then c - 48 + 52
    else if c == 45 then 62
    else 63
  }

  /** Three bytes in four digits. */
  function Digits(x: byte, y: byte, z: byte): Text {
    [Digit(x >> 2), Digit(((x & 3) << 4) | (y >> 4)), Digit(((y & 15) << 2) | (z >> 6)), Digit(z & 63)]
  }

  /** Four digits as three bytes. */
  function Group(a: byte, b: byte, c: byte, d: byte): Text {
    [(Value(a) << 2) | (Value(b) >> 4), ((Value(b) & 15) << 4) | (Value(c) >> 2), ((Value(c) & 3) << 6) | Value(d)]
  }

  function Encode(b: Text): Text {
    if b == [] then []
    else if |b| == 1 then Digits(b[0], 0, 0)[..2]
    else if |b| == 2 then Digits(b[0], b[1], 0)[..3]
    else Digits(b[0], b[1], b[2]) + Encode(b[3..])
  }

  /** A lenient decoder: spare bits, and a single digit at the end, are dropped. */
  function Decode(t: Text): Text {
    if |t| <= 1 then []
    else if |t| == 2 then Group(t[0], t[1], 65, 65)[..1]
    else if |t| == 3 then Group(t[0], t[1], t[2], 65)[..2]
    else Group(t[0], t[1], t[2], t[3]) + Decode(t[4..])
  }

  lemma DigitValue(n: sextet)
    ensures IsDigit(Digit(n)) && Value(Digit(n)) == n
  {
  }

  /** Three bytes through four digits and back. */
  lemma GroupDigits(x: byte, y: byte, z: byte)
    ensures var d := Digits(x, y, z);
      |d| == 4 && Group(d[0], d[1], d[2], d[3]) == [x, y, z] && forall c :: c in d ==> IsDigit(c)
  {
    DigitValue(x >> 2);
    DigitValue(((x & 3) << 4) | (y >> 4));
    DigitValue(((y & 15) << 2) | (z >> 6));
    DigitValue(z & 63);
  }

  lemma {:induction false} DecodeEncode(b: Text)
    ensures Decode(Encode(b)) == b
    ensures forall c :: c in Encode(b) ==> IsDigit(c)
    ensures b != [] ==> Encode(b) != []
  {
    if |b| == 0 {
    } else if |b| <= 2 {
      GroupDigits(b[0], if |b| == 2 then b[1] else 0, 0);
    } else {
      DecodeEncode(b[3..]);
      GroupDigits(b[0], b[1], b[2]);
      DecodeGroup(Digits(b[0], b[1], b[2]), Encode(b[3..]));
      assert b == [b[0], b[1], b[2]] + b[3..];
    }
  }

  lemma DecodeGroup(head: Text, rest: Text)
    requires |head| == 4
    ensures Decode(head + rest) == Group(head[0], head[1], head[2], head[3]) + Decode(rest)
  {
    assert (head + rest)[4..] == rest;
  }

  // ----- Scoped IDs -----

  const TILDE: byte := 126

  predicate NameChar(c: byte) {
    97 <= c <= 122 || 48 <= c <= 57 || c == 45
  }

  /** [a-z0-9][a-z0-9-]* */
  predicate Name(t: Text) {
    t != [] && t[0] != 45 && forall c :: c in t ==> NameChar(c)
  }

  function Scoped(workspace: Text, backend: Text): Text {
    workspace + [TILDE] + Encode(backend)
  }

  /** Where the first tilde is, if there is one. */
  function FirstTilde(t: Text): (i: nat)
    ensures i <= |t| && (i < |t| ==> t[i] == TILDE)
    ensures forall k :: 0 <= k < i ==> t[k] != TILDE
  {
    if t == [] || t[0] == TILDE then 0 else 1 + FirstTilde(t[1..])
  }

  datatype Parsed = Parsed(workspace: Text, backend: Text)

  /** None is a throw: not of the form, or not what Scoped makes of what it decodes to. An ID that
      decodes to no text never re-encodes to itself. */
  function Parse(id: Text): Option<Parsed> {
    var i := FirstTilde(id);
    if i == |id| || !Name(id[..i]) || id[i + 1..] == [] || (exists c :: c in id[i + 1..] && !IsDigit(c)) then None
    else
      var backend := Decode(id[i + 1..]);
      if !Utf8(backend) || Scoped(id[..i], backend) != id then None else Some(Parsed(id[..i], backend))
  }

  lemma {:induction false} TildeAfterName(name: Text, rest: Text)
    requires forall c :: c in name ==> NameChar(c)
    ensures FirstTilde(name + [TILDE] + rest) == |name|
  {
    var id := name + [TILDE] + rest;
    if name != [] {
      TildeAfterName(name[1..], rest);
      assert id[1..] == name[1..] + [TILDE] + rest;
      assert id[0] == name[0] && NameChar(name[0]);
    }
  }

  /** Parsing undoes scoping for every ID of a named workspace, and only for those. */
  lemma ParseScoped(workspace: Text, backend: Text)
    ensures Parse(Scoped(workspace, backend)) == Some(Parsed(workspace, backend)) <==>
            Name(workspace) && backend != [] && Utf8(backend)
  {
    var id := Scoped(workspace, backend);
    DecodeEncode(backend);
    if Name(workspace) {
      TildeAfterName(workspace, Encode(backend));
      assert id[..|workspace|] == workspace && id[|workspace| + 1..] == Encode(backend);
    }
    if backend == [] { assert Encode(backend) == []; }
  }

  /** And scoping undoes parsing: an accepted ID is the one its parts make. */
  lemma ScopedParse(id: Text)
    ensures Parse(id).Some? ==>
      && Scoped(Parse(id).value.workspace, Parse(id).value.backend) == id
      && Name(Parse(id).value.workspace) && Parse(id).value.backend != [] && Utf8(Parse(id).value.backend)
  {
    if Parse(id).Some? {
      var parsed := Parse(id).value;
      assert |Scoped(parsed.workspace, parsed.backend)| == |parsed.workspace| + 1 + |Encode(parsed.backend)|;
    }
  }

  /** No ID names two backends, and no backend has two IDs. */
  lemma ScopedInjective(a: Text, b: Text, c: Text, d: Text)
    requires Name(a) && Name(c) && Scoped(a, b) == Scoped(c, d)
    ensures a == c && b == d
  {
    var id := Scoped(a, b);
    TildeAfterName(a, Encode(b));
    TildeAfterName(c, Encode(d));
    assert a == id[..|a|] && c == id[..|c|];
    assert Encode(b) == id[|a| + 1..] && Encode(d) == id[|c| + 1..];
    DecodeEncode(b);
    DecodeEncode(d);
  }
}
