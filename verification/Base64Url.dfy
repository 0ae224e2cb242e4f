/** The base64url decoder a token's payload is read with (section 5 of RFC 4648). */
module Base64Url {
  import opened Wrappers

  type Byte = bv8
  type Sextet = s: bv32 | s < 64

  const PAD: Byte := 61  // '='

  // ---- the alphabet --------------------------------------------------------------------------------

  /** The six bits a character stands for. */
  function Value(c: Byte): Option<Sextet> {
    if 65 <= c <= 90 then Some((c - 65) as bv32)
    else if 97 <= c <= 122 then Some((c - 97 + 26) as bv32)
    else if 48 <= c <= 57 then Some((c - 48 + 52) as bv32)
    else if c == 45 then Some(62)
    else if c == 95 then Some(63)
    else None
  }

  /** The alphabet, by value. */
  function Letter(sextet: Sextet): Byte {
    if sextet < 26 then 65 + sextet as bv8
    else if sextet < 52 then 97 + (sextet - 26) as bv8
    else if sextet < 62 then 48 + (sextet - 52) as bv8
    else if sextet == 62 then 45
    else 95
  }

  lemma LetterIsRead(sextet: Sextet)
    ensures Value(Letter(sextet)) == Some(sextet) && Letter(sextet) != PAD
  {}

  /** The characters of the url-safe alphabet: the letters, the digits, the hyphen and the underscore. */
  predicate InAlphabet(c: char) {
    'A' <= c <= 'Z' || 'a' <= c <= 'z' || '0' <= c <= '9' || c == '-' || c == '_'
  }

  lemma ValuesAreInTheAlphabet(c: Byte)
    ensures Value(c).Some? <==> InAlphabet(c as char)
  {}

  /** The alphabet of section 5 of RFC 4648: each run of it starts where the last ended and counts up by one. */
  lemma TheAlphabetIsUrlSafe(c: Byte, next: Byte)
    ensures Value('A' as Byte) == Some(0) && Value('a' as Byte) == Some(26) && Value('0' as Byte) == Some(52)
    ensures Value('Z' as Byte) == Some(25) && Value('z' as Byte) == Some(51) && Value('9' as Byte) == Some(61)
    ensures Value('-' as Byte) == Some(62) && Value('_' as Byte) == Some(63)
    ensures c < 255 && next == c + 1 && InAlphabet(c as char) && InAlphabet(next as char) ==>
              Value(next).value == Value(c).value + 1
  {
    ValuesAreInTheAlphabet(c);
    ValuesAreInTheAlphabet(next);
  }

  // ---- what decoding means -------------------------------------------------------------------------

  /** The characters before the first padding character. */
  function Payload(raw: seq<Byte>): seq<Byte> {
    if raw == [] || raw[0] == PAD then [] else [raw[0]] + Payload(raw[1..])
  }

  /** The sextets of a text, when every character is in the alphabet. */
  function Read(text: seq<Byte>): Option<seq<Sextet>> {
    if text == [] then Some([])
    else
      var before, last := Read(text[..|text| - 1]), Value(text[|text| - 1]);
      if before.None? || last.None? then None else Some(before.value + [last.value])
  }

  function Left(word: bv32, count: bv32): bv32
    requires count < 32
  {
    word << count
  }

  function Right(word: bv32, count: bv32): bv32
    requires count < 32
  {
    word >> count
  }

  // The three bytes that four sextets hold.

  function First(a: Sextet, b: Sextet): Byte {
    (Left(a, 2) | Right(b, 4)) as bv8
  }

  function Second(b: Sextet, c: Sextet): Byte {
    (Left(b & 0xf, 4) | Right(c, 2)) as bv8
  }

  function Third(c: Sextet, d: Sextet): Byte {
    (Left(c & 3, 6) | d) as bv8
  }

  /** The sextets after the last complete group of four. */
  datatype Rest = Zero | One(a: Sextet) | Two(a: Sextet, b: Sextet) | Three(a: Sextet, b: Sextet, c: Sextet) {
    function Count(): nat {
      match this
      case Zero => 0
      case One(_) => 1
      case Two(_, _) => 2
      case Three(_, _, _) => 3
    }

    /** The whole bytes in it; the bits left over are dropped. */
    function Bytes(): seq<Byte> {
      match this
      case Zero => []
      case One(_) => []
      case Two(a, b) => [First(a, b)]
      case Three(a, b, c) => [First(a, b), Second(b, c)]
    }
  }

  /** The bytes of the complete groups, and what follows them. */
  datatype Groups = Groups(bytes: seq<Byte>, rest: Rest) {
    function Add(d: Sextet): Groups {
      match rest
      case Zero => Groups(bytes, One(d))
      case One(a) => Groups(bytes, Two(a, d))
      case Two(a, b) => Groups(bytes, Three(a, b, d))
      case Three(a, b, c) => Groups(bytes + [First(a, b), Second(b, c), Third(c, d)], Zero)
    }

    function All(): seq<Byte> {
      bytes + rest.Bytes()
    }
  }

  function Grouped(sextets: seq<Sextet>): Groups {
    if sextets == [] then Groups([], Zero) else Grouped(sextets[..|sextets| - 1]).Add(sextets[|sextets| - 1])
  }

  function Decoded(raw: seq<Byte>): Option<seq<Byte>> {
    var sextets := Read(Payload(raw));
    if sextets.None? then None else Some(Grouped(sextets.value).All())
  }

  // ---- the accumulator -----------------------------------------------------------------------------

  function Shifted(acc: bv32, sextet: Sextet): bv32 {
    Left(acc, 6) | sextet
  }

  /** What the accumulator holds between two groups. */
  function Accumulated(rest: Rest): bv32 {
    match rest
    case Zero => 0
    case One(a) => a
    case Two(a, b) => Shifted(a, b)
    case Three(a, b, c) => Shifted(Shifted(a, b), c)
  }

  /** A conversion that fails when the value is not a byte. */
  function ToByte(value: bv32): Option<Byte> {
    if value < 256 then Some(value as bv8) else None
  }

  lemma FirstShift(a: Sextet)
    ensures Shifted(0, a) == a
  {}

  /** A full accumulator stays below twenty-four bits, and none of its three conversions fails. */
  lemma FourSextets(a: Sextet, b: Sextet, c: Sextet, d: Sextet)
    ensures var acc := Shifted(Shifted(Shifted(a, b), c), d);
            && acc < 0x100_0000
            && ToByte(Right(acc, 16)) == Some(First(a, b))
            && ToByte(Right(acc, 8) & 0xff) == Some(Second(b, c))
            && ToByte(acc & 0xff) == Some(Third(c, d))
  {}

  lemma TwoSextets(a: Sextet, b: Sextet)
    ensures ToByte(Right(Shifted(a, b), 4) & 0xff) == Some(First(a, b))
  {}

  lemma ThreeSextets(a: Sextet, b: Sextet, c: Sextet)
    ensures var acc := Shifted(Shifted(a, b), c);
            ToByte(Right(acc, 10)) == Some(First(a, b)) && ToByte(Right(acc, 2) & 0xff) == Some(Second(b, c))
  {}

  // ---- the decoder ---------------------------------------------------------------------------------

  lemma {:induction false} PayloadStops(raw: seq<Byte>, i: nat)
    requires i <= |raw| && (forall k :: 0 <= k < i ==> raw[k] != PAD) && (i == |raw| || raw[i] == PAD)
    ensures Payload(raw) == raw[..i]
  {
    if i != 0 {
      PayloadStops(raw[1..], i - 1);
      assert raw[..i] == [raw[0]] + raw[1..][..i - 1];
    }
  }

  lemma {:induction false} PayloadReaches(raw: seq<Byte>, i: nat)
    requires i < |raw| && forall k :: 0 <= k <= i ==> raw[k] != PAD
    ensures i < |Payload(raw)| && Payload(raw)[..i + 1] == raw[..i + 1]
  {
    if i != 0 {
      PayloadReaches(raw[1..], i - 1);
      assert raw[..i + 1] == [raw[0]] + raw[1..][..i];
    }
  }

  lemma {:induction false} RefusedForGood(text: seq<Byte>, i: nat)
    requires i <= |text| && Read(text[..i]).None?
    ensures Read(text).None?
    decreases |text|
  {
    if i == |text| {
      assert text[..i] == text;
    } else {
      assert text[..|text| - 1][..i] == text[..i];
      RefusedForGood(text[..|text| - 1], i);
    }
  }

  /** A character outside the alphabet before any padding refuses the whole input. */
  lemma Refused(raw: seq<Byte>, i: nat)
    requires i < |raw| && (forall k :: 0 <= k <= i ==> raw[k] != PAD) && Value(raw[i]).None?
    ensures Decoded(raw).None?
  {
    PayloadReaches(raw, i);
    assert raw[..i + 1][i] == raw[i];
    RefusedForGood(Payload(raw), i + 1);
  }

  /** The characters of `text` are all in the alphabet, and make these groups. */
  predicate Makes(text: seq<Byte>, groups: Groups) {
    Read(text).Some? && Grouped(Read(text).value) == groups
  }

  lemma OneMore(raw: seq<Byte>, i: nat, groups: Groups)
    requires i < |raw| && Makes(raw[..i], groups) && Value(raw[i]).Some?
    ensures Makes(raw[..i + 1], groups.Add(Value(raw[i]).value))
  {
    assert raw[..i + 1][..i] == raw[..i];
    var sextets := Read(raw[..i]).value;
    assert (sextets + [Value(raw[i]).value])[..|sextets|] == sextets;
  }

  /** The payload ends at `i`: what was read is what the input decodes to. */
  lemma AtEnd(raw: seq<Byte>, i: nat, groups: Groups)
    requires i <= |raw| && (forall k :: 0 <= k < i ==> raw[k] != PAD) && (i == |raw| || raw[i] == PAD)
    requires Makes(raw[..i], groups)
    ensures Decoded(raw) == Some(groups.All())
  {
    PayloadStops(raw, i);
  }

  /** The decoder's variables stand for the groups read so far. */
  predicate Stands(groups: Groups, out: seq<Byte>, acc: bv32, sextets: nat) {
    out == groups.bytes && acc == Accumulated(groups.rest) && sextets == groups.rest.Count()
  }

  /** The three bytes of a full accumulator; none when a conversion fails. */
  method Flush(acc: bv32, ghost x: Byte, ghost y: Byte, ghost z: Byte) returns (bytes: Option<seq<Byte>>)
    requires ToByte(Right(acc, 16)) == Some(x) && ToByte(Right(acc, 8) & 0xff) == Some(y)
    requires ToByte(acc & 0xff) == Some(z)
    ensures bytes == Some([x, y, z])
  {
    var first, second, third := ToByte(Right(acc, 16)), ToByte(Right(acc, 8) & 0xff), ToByte(acc & 0xff);
    if first.None? || second.None? || third.None? {
      return None;
    }
    return Some([first.value, second.value, third.value]);
  }

  lemma AddStands(groups: Groups, out: seq<Byte>, acc: bv32, sextets: nat, d: Sextet)
    requires Stands(groups, out, acc, sextets) && sextets < 3
    ensures Stands(groups.Add(d), out, Shifted(acc, d), sextets + 1)
  {
    FirstShift(d);
  }

  /** Takes one sextet in, and flushes the group it completes; it fails when a conversion does. */
  method Absorb(bytes: seq<Byte>, before: bv32, count: nat, value: Sextet, ghost groups: Groups)
    returns (out: seq<Byte>, acc: bv32, sextets: nat, failed: bool)
    requires Stands(groups, bytes, before, count)
    ensures !failed && Stands(groups.Add(value), out, acc, sextets)
  {
    out, acc, sextets, failed := bytes, Shifted(before, value), count + 1, false;
    if sextets == 4 {
      ghost var r := groups.rest;
      FourSextets(r.a, r.b, r.c, value);
      var group := Flush(acc, First(r.a, r.b), Second(r.b, r.c), Third(r.c, value));
      if group.None? {
        return out, acc, sextets, true;
      }
      out, acc, sextets := out + group.value, 0, 0;
    } else {
      AddStands(groups, bytes, before, count, value);
    }
  }

  /** The match on the sextets left over when the payload ends. */
  method Finish(bytes: seq<Byte>, acc: bv32, sextets: nat, ghost groups: Groups) returns (result: Option<seq<Byte>>)
    requires Stands(groups, bytes, acc, sextets)
    ensures result == Some(groups.All())
  {
    var out := bytes;
    if sextets == 2 {
      TwoSextets(groups.rest.a, groups.rest.b);
      var first := ToByte(Right(acc, 4) & 0xff);
      if first.None? {
        return None;
      }
      out := out + [first.value];
    } else if sextets == 3 {
      ThreeSextets(groups.rest.a, groups.rest.b, groups.rest.c);
      var first, second := ToByte(Right(acc, 10)), ToByte(Right(acc, 2) & 0xff);
      if first.None? || second.None? {
        return None;
      }
      out := out + [first.value, second.value];
    } else {
      assert out + [] == out;
    }
    return Some(out);
  }

  /**
    Decodes base64url. It refuses an input exactly when a character before the first padding is not
    in the alphabet: no byte conversion ever fails.
   */
  method Decode(raw: seq<Byte>) returns (result: Option<seq<Byte>>)
    ensures result == Decoded(raw)
  {
    var out: seq<Byte>, acc: bv32, sextets: nat := [], 0, 0;
    ghost var groups := Groups([], Zero);
    var i := 0;
    while i < |raw| && raw[i] != PAD
      invariant i <= |raw| && forall k :: 0 <= k < i ==> raw[k] != PAD
      invariant Makes(raw[..i], groups) && Stands(groups, out, acc, sextets)
    {
      var value := Value(raw[i]);
      if value.None? {
        Refused(raw, i);
        return None;
      }
      OneMore(raw, i, groups);
      var failed;
      out, acc, sextets, failed := Absorb(out, acc, sextets, value.value, groups);
      if failed {
        return None;
      }
      groups := groups.Add(value.value);
      i := i + 1;
    }
    AtEnd(raw, i, groups);
    result := Finish(out, acc, sextets, groups);
  }

  // ---- the encoder ---------------------------------------------------------------------------------

  function Pack(x: Byte, y: Byte, z: Byte): bv32 {
    Left(x as bv32, 16) | Left(y as bv32, 8) | z as bv32
  }

  function SextetAt(acc: bv32, count: bv32): Sextet
    requires count < 32
  {
    Right(acc, count) & 0x3f
  }

  /** The sextets of up to three bytes: one more than there are bytes. */
  function CutChunk(chunk: seq<Byte>): seq<Sextet>
    requires 1 <= |chunk| <= 3
  {
    if |chunk| == 1 then
      var acc := Pack(chunk[0], 0, 0);
      [SextetAt(acc, 18), SextetAt(acc, 12)]
    else if |chunk| == 2 then
      var acc := Pack(chunk[0], chunk[1], 0);
      [SextetAt(acc, 18), SextetAt(acc, 12), SextetAt(acc, 6)]
    else
      var acc := Pack(chunk[0], chunk[1], chunk[2]);
      [SextetAt(acc, 18), SextetAt(acc, 12), SextetAt(acc, 6), SextetAt(acc, 0)]
  }

  function Cut(bytes: seq<Byte>): seq<Sextet> {
    if bytes == [] then []
    else if |bytes| <= 3 then CutChunk(bytes)
    else CutChunk(bytes[..3]) + Cut(bytes[3..])
  }

  function Letters(sextets: seq<Sextet>): seq<Byte> {
    if sextets == [] then [] else Letters(sextets[..|sextets| - 1]) + [Letter(sextets[|sextets| - 1])]
  }

  /** The unpadded encoding of `bytes`. */
  function Encode(bytes: seq<Byte>): seq<Byte> {
    Letters(Cut(bytes))
  }

  // ---- the round trip ------------------------------------------------------------------------------

  lemma {:induction false} LettersAreRead(sextets: seq<Sextet>)
    ensures Read(Letters(sextets)) == Some(sextets)
    ensures PAD !in Letters(sextets)
  {
    if sextets != [] {
      var init, last := sextets[..|sextets| - 1], sextets[|sextets| - 1];
      LettersAreRead(init);
      LetterIsRead(last);
      assert (Letters(init) + [Letter(last)])[..|Letters(init)|] == Letters(init);
      assert init + [last] == sextets;
    }
  }

  lemma FirstRejoins(x: Byte, y: Byte, z: Byte)
    ensures First(SextetAt(Pack(x, y, z), 18), SextetAt(Pack(x, y, z), 12)) == x
  {}

  lemma SecondRejoins(x: Byte, y: Byte, z: Byte)
    ensures Second(SextetAt(Pack(x, y, z), 12), SextetAt(Pack(x, y, z), 6)) == y
  {}

  lemma ThirdRejoins(x: Byte, y: Byte, z: Byte)
    ensures Third(SextetAt(Pack(x, y, z), 6), SextetAt(Pack(x, y, z), 0)) == z
  {}

  lemma GroupedTwo(a: Sextet, b: Sextet)
    ensures Grouped([a, b]) == Groups([], Two(a, b))
  {
    assert [a, b][..1] == [a] && [a][..0] == [];
    assert Grouped([a]) == Groups([], One(a));
  }

  lemma GroupedThree(a: Sextet, b: Sextet, c: Sextet)
    ensures Grouped([a, b, c]) == Groups([], Three(a, b, c))
  {
    GroupedTwo(a, b);
    assert [a, b, c][..2] == [a, b];
  }

  lemma GroupedFour(a: Sextet, b: Sextet, c: Sextet, d: Sextet)
    ensures Grouped([a, b, c, d]) == Groups([First(a, b), Second(b, c), Third(c, d)], Zero)
  {
    GroupedThree(a, b, c);
    assert [a, b, c, d][..3] == [a, b, c];
  }

  lemma ChunkRejoins(chunk: seq<Byte>)
    requires 1 <= |chunk| <= 3
    ensures Grouped(CutChunk(chunk)).All() == chunk
    ensures |chunk| == 3 ==> Grouped(CutChunk(chunk)) == Groups(chunk, Zero)
  {
    if |chunk| == 1 {
      OneRejoins(chunk);
    } else if |chunk| == 2 {
      TwoRejoin(chunk);
    } else {
      ThreeRejoin(chunk);
    }
  }

  lemma OneRejoins(chunk: seq<Byte>)
    requires |chunk| == 1
    ensures Grouped(CutChunk(chunk)).All() == chunk
  {
    var s := CutChunk(chunk);
    FirstRejoins(chunk[0], 0, 0);
    GroupedTwo(s[0], s[1]);
  }

  lemma TwoRejoin(chunk: seq<Byte>)
    requires |chunk| == 2
    ensures Grouped(CutChunk(chunk)).All() == chunk
  {
    var s := CutChunk(chunk);
    FirstRejoins(chunk[0], chunk[1], 0);
    SecondRejoins(chunk[0], chunk[1], 0);
    GroupedThree(s[0], s[1], s[2]);
  }

  lemma ThreeRejoin(chunk: seq<Byte>)
    requires |chunk| == 3
    ensures Grouped(CutChunk(chunk)) == Groups(chunk, Zero) && Grouped(CutChunk(chunk)).All() == chunk
  {
    var s := CutChunk(chunk);
    FirstRejoins(chunk[0], chunk[1], chunk[2]);
    SecondRejoins(chunk[0], chunk[1], chunk[2]);
    ThirdRejoins(chunk[0], chunk[1], chunk[2]);
    GroupedFour(s[0], s[1], s[2], s[3]);
  }

  /** After complete groups, grouping starts afresh. */
  lemma {:induction false} GroupedJoins(a: seq<Sextet>, b: seq<Sextet>)
    requires Grouped(a).rest == Zero
    ensures Grouped(a + b) == Groups(Grouped(a).bytes + Grouped(b).bytes, Grouped(b).rest)
  {
    if b == [] {
      assert a + b == a;
      assert Grouped(a).bytes + [] == Grouped(a).bytes;
    } else {
      var init, last := b[..|b| - 1], b[|b| - 1];
      GroupedJoins(a, init);
      assert (a + b)[..|a + b| - 1] == a + init;
      AddUnder(Grouped(a).bytes, Grouped(init), last);
    }
  }

  lemma AddUnder(bytes: seq<Byte>, groups: Groups, d: Sextet)
    ensures Groups(bytes + groups.bytes, groups.rest).Add(d) == Groups(bytes + groups.Add(d).bytes, groups.Add(d).rest)
  {
    if groups.rest.Three? {
      var more := [First(groups.rest.a, groups.rest.b), Second(groups.rest.b, groups.rest.c), Third(groups.rest.c, d)];
      assert bytes + groups.bytes + more == bytes + (groups.bytes + more);
    }
  }

  lemma {:induction false} CutRejoins(bytes: seq<Byte>)
    ensures Grouped(Cut(bytes)).All() == bytes
  {
    if 3 < |bytes| {
      var chunk, rest := bytes[..3], bytes[3..];
      ChunkRejoins(chunk);
      CutRejoins(rest);
      GroupedJoins(CutChunk(chunk), Cut(rest));
      var groups := Grouped(Cut(rest));
      assert chunk + groups.bytes + groups.rest.Bytes() == chunk + groups.All();
      assert chunk + rest == bytes;
    } else if bytes != [] {
      ChunkRejoins(bytes);
    }
  }

  /** Any byte sequence, encoded, decodes to itself, whatever padding or text follows the padding. */
  lemma RoundTrip(bytes: seq<Byte>, after: seq<Byte>)
    ensures Decoded(Encode(bytes)) == Some(bytes)
    ensures Decoded(Encode(bytes) + [PAD] + after) == Some(bytes)
  {
    CutRejoins(bytes);
    LettersAreRead(Cut(bytes));
    var text := Encode(bytes);
    PayloadStops(text, |text|);
    assert text[..|text|] == text;
    var padded := text + [PAD] + after;
    PayloadStops(padded, |text|);
    assert padded[..|text|] == text;
  }
}
