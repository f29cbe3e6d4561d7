/** Generating the one-time codes, and reading them back as people type them. */
module WebCodes {
  newtype byte = x: int | 0 <= x < 256

  const ALPHABET := "ABCDEFGHJKLMNPQRSTUVWXYZ23456789"
  const CODE_LENGTH := 8

  // The same alphabet by position: A-Z without I and O, then 2-9.
  function Letter(i: nat): char
    requires i < 32
  {
    if i < 8 then 'A' + i as char
    else if i < 13 then 'J' + (i - 8) as char
    else if i < 24 then 'P' + (i - 13) as char
    else '2' + (i - 24) as char
  }

  predicate IsLetter(c: char) {
    exists i: nat :: i < 32 && Letter(i) == c
  }

  lemma Alphabet()
    ensures |ALPHABET| == 32 && forall i :: 0 <= i < 32 ==> ALPHABET[i] == Letter(i)
  {
    assert ALPHABET == [
      Letter(0), Letter(1), Letter(2), Letter(3), Letter(4), Letter(5), Letter(6), Letter(7),
      Letter(8), Letter(9), Letter(10), Letter(11), Letter(12), Letter(13), Letter(14), Letter(15),
      Letter(16), Letter(17), Letter(18), Letter(19), Letter(20), Letter(21), Letter(22), Letter(23),
      Letter(24), Letter(25), Letter(26), Letter(27), Letter(28), Letter(29), Letter(30), Letter(31)];
  }

  function CodeOf(random: seq<byte>): (code: string)
    ensures |code| == |random|
  {
    seq(|random|, i requires 0 <= i < |random| => Letter(random[i] as int % 32))
  }

  function Ascii(b: seq<byte>): string {
    seq(|b|, i requires 0 <= i < |b| => b[i] as char)
  }

  // generateWebCode: the random bytes are replaced by letters in place.
  method GenerateWebCode(b: array<byte>) returns (code: string)
    requires b.Length == CODE_LENGTH
    modifies b
    ensures code == CodeOf(old(b[..])) == Ascii(b[..])
  {
    Alphabet();
    for i := 0 to b.Length
      invariant forall k :: 0 <= k < i ==> b[k] as char == Letter(old(b[k]) as int % 32)
      invariant forall k :: i <= k < b.Length ==> b[k] == old(b[k])
    {
      b[i] := ALPHABET[b[i] as int % |ALPHABET|] as byte;
    }
    code := Ascii(b[..]);
    assert code == CodeOf(old(b[..]));
  }

  // --- Uniformity ---

  function Power(base: nat, n: nat): nat {
    if n == 0 then 1 else base * Power(base, n - 1)
  }

  // The bytes that become the letter at position i.
  function BytesFor(i: nat): set<byte>
    requires i < 32
  {
    {i as byte, (i + 32) as byte, (i + 64) as byte, (i + 96) as byte,
     (i + 128) as byte, (i + 160) as byte, (i + 192) as byte, (i + 224) as byte}
  }

  lemma EightBytes(i: nat)
    requires i < 32
    ensures |BytesFor(i)| == 8
  {
    var seven := BytesFor(i) - {i as byte};
    assert seven == {(i + 32) as byte, (i + 64) as byte, (i + 96) as byte,
                     (i + 128) as byte, (i + 160) as byte, (i + 192) as byte, (i + 224) as byte};
  }

  lemma BytesForExact(i: nat)
    requires i < 32
    ensures forall x: byte :: x in BytesFor(i) <==> Letter(x as int % 32) == Letter(i)
  {
    forall x: byte
      ensures x in BytesFor(i) <==> x as int % 32 == i
    {
      var q := x as int / 32;
      assert x as int == 32 * q + x as int % 32 && 0 <= q < 8;
    }
  }

  ghost function PositionOf(c: char): (i: nat)
    requires IsLetter(c)
    ensures i < 32 && Letter(i) == c
  {
    var i: nat :| i < 32 && Letter(i) == c;
    i
  }

  predicate IsCode(code: string) {
    forall i :: 0 <= i < |code| ==> IsLetter(code[i])
  }

  // All one-longer sequences: a first byte from one set, the rest from another.
  function Consed(firsts: set<byte>, rests: set<seq<byte>>): set<seq<byte>> {
    set x, rest | x in firsts && rest in rests :: [x] + rest
  }

  // The random inputs that give this code.
  ghost function Inputs(code: string): set<seq<byte>>
    requires IsCode(code)
  {
    if code == "" then {[]} else Consed(BytesFor(PositionOf(code[0])), Inputs(code[1..]))
  }

  lemma ConsedMember(firsts: set<byte>, rests: set<seq<byte>>, s: seq<byte>)
    ensures s in Consed(firsts, rests) <==> s != [] && s[0] in firsts && s[1..] in rests
  {
    if s in Consed(firsts, rests) {
      var x, rest :| x in firsts && rest in rests && s == [x] + rest;
      assert s[1..] == rest;
    }
    if s != [] && s[0] in firsts && s[1..] in rests {
      assert s == [s[0]] + s[1..];
    }
  }

  lemma CodeOfTail(random: seq<byte>)
    requires random != []
    ensures CodeOf(random)[0] == Letter(random[0] as int % 32) && CodeOf(random)[1..] == CodeOf(random[1..])
  {
  }

  lemma {:induction false} InputsExact(code: string, random: seq<byte>)
    requires IsCode(code)
    ensures random in Inputs(code) <==> CodeOf(random) == code
    decreases |code|
  {
    if code == "" {
    } else if random != [] {
      var i := PositionOf(code[0]);
      BytesForExact(i);
      InputsExact(code[1..], random[1..]);
      ConsedMember(BytesFor(i), Inputs(code[1..]), random);
      CodeOfTail(random);
      assert CodeOf(random) == [CodeOf(random)[0]] + CodeOf(random)[1..] && code == [code[0]] + code[1..];
    } else {
      ConsedMember(BytesFor(PositionOf(code[0])), Inputs(code[1..]), random);
    }
  }

  lemma {:induction false} ConsedCard(firsts: set<byte>, rests: set<seq<byte>>)
    ensures |Consed(firsts, rests)| == |firsts| * |rests|
  {
    if firsts == {} {
      assert Consed(firsts, rests) == {};
    } else {
      var x :| x in firsts;
      var fewer := firsts - {x};
      ConsedCard(fewer, rests);
      OneFirst(x, rests);
      assert Consed(firsts, rests) == Consed(fewer, rests) + Consed({x}, rests);
      forall s | s in Consed(fewer, rests)
        ensures s !in Consed({x}, rests)
      {
        assert s[0] != x;
      }
      assert |firsts| == |fewer| + 1;
      assert (|fewer| + 1) * |rests| == |fewer| * |rests| + |rests|;
    }
  }

  lemma {:induction false} OneFirst(x: byte, rests: set<seq<byte>>)
    ensures |Consed({x}, rests)| == |rests|
  {
    if rests == {} {
      assert Consed({x}, rests) == {};
    } else {
      var rest :| rest in rests;
      var fewer := rests - {rest};
      OneFirst(x, fewer);
      forall s
        ensures s in Consed({x}, rests) <==> s in Consed({x}, fewer) || s == [x] + rest
      {
        ConsedMember({x}, rests, s);
        ConsedMember({x}, fewer, s);
        assert s != [] ==> s == [s[0]] + s[1..];
        assert ([x] + rest)[1..] == rest;
      }
      assert Consed({x}, rests) == Consed({x}, fewer) + {[x] + rest};
      ConsedMember({x}, fewer, [x] + rest);
      assert ([x] + rest)[1..] == rest;
    }
  }

  lemma {:induction false} InputsCard(code: string)
    requires IsCode(code)
    ensures |Inputs(code)| == Power(8, |code|)
    decreases |code|
  {
    if code != "" {
      var firsts, rests := BytesFor(PositionOf(code[0])), Inputs(code[1..]);
      assert |firsts| == 8 by {
        EightBytes(PositionOf(code[0]));
      }
      InputsCard(code[1..]);
      assert |Consed(firsts, rests)| == 8 * |rests| by {
        ConsedCard(firsts, rests);
      }
    }
  }

  // The loop is uniform: every code of n letters comes from exactly 8^n of the 256^n
  // random inputs, so that none of the 32^8 codes is likelier than another.
  lemma Uniform(code: string)
    requires IsCode(code)
    ensures |Inputs(code)| == Power(8, |code|)
    ensures forall random :: random in Inputs(code) <==> CodeOf(random) == code
  {
    InputsCard(code);
    forall random
      ensures random in Inputs(code) <==> CodeOf(random) == code
    {
      InputsExact(code, random);
    }
  }

  // And it gives nothing but codes.
  lemma OnlyCodes(random: seq<byte>)
    ensures IsCode(CodeOf(random))
  {
    forall i | 0 <= i < |random|
      ensures IsLetter(CodeOf(random)[i])
    {
      assert Letter(random[i] as int % 32) == CodeOf(random)[i];
    }
  }

  // --- Reading a code back ---

  predicate IsSpace(c: char) {
    c == ' ' || '\t' <= c <= '\r' || c == 0x85 as char || c == 0xA0 as char
  }

  function Upper(c: char): char {
    if 'a' <= c <= 'z' then c - 32 as char else c
  }

  function ToUpper(s: string): (t: string)
    ensures |t| == |s|
  {
    seq(|s|, i requires 0 <= i < |s| => Upper(s[i]))
  }

  function TrimLeft(s: string): string {
    if s != "" && IsSpace(s[0]) then TrimLeft(s[1..]) else s
  }

  function TrimRight(s: string): string {
    if s != "" && IsSpace(s[|s| - 1]) then TrimRight(s[..|s| - 1]) else s
  }

  function Trim(s: string): string {
    TrimRight(TrimLeft(s))
  }

  function TrimSlashes(s: string): string {
    if s != "" && s[|s| - 1] == '/' then TrimSlashes(s[..|s| - 1]) else s
  }

  // What WebLogin and OAuthAuthorize do to a submitted code.
  function Normalize(s: string): string {
    Trim(ToUpper(s))
  }

  predicate AllSpaces(s: string) {
    forall i :: 0 <= i < |s| ==> IsSpace(s[i])
  }

  lemma {:induction false} TrimLeftPad(pad: string, s: string)
    requires AllSpaces(pad) && (s != "" ==> !IsSpace(s[0]))
    ensures TrimLeft(pad + s) == s
    decreases |pad|
  {
    if pad == "" {
      assert pad + s == s;
    } else {
      assert (pad + s)[1..] == pad[1..] + s;
      TrimLeftPad(pad[1..], s);
    }
  }

  lemma {:induction false} TrimRightPad(s: string, pad: string)
    requires AllSpaces(pad) && (s != "" ==> !IsSpace(s[|s| - 1]))
    ensures TrimRight(s + pad) == s
    decreases |pad|
  {
    if pad == "" {
      assert s + pad == s;
    } else {
      var t := s + pad;
      assert t[|t| - 1] == pad[|pad| - 1];
      assert t[..|t| - 1] == s + pad[..|pad| - 1];
      TrimRightPad(s, pad[..|pad| - 1]);
    }
  }

  lemma {:induction false} TrimRightExact(s: string) returns (after: string)
    ensures s == TrimRight(s) + after && AllSpaces(after)
    ensures TrimRight(s) != "" ==> !IsSpace(TrimRight(s)[|TrimRight(s)| - 1])
  {
    after := "";
    if s != "" && IsSpace(s[|s| - 1]) {
      after := TrimRightExact(s[..|s| - 1]);
      after := after + [s[|s| - 1]];
    }
  }

  lemma {:induction false} TrimLeftExact(s: string) returns (before: string)
    ensures s == before + TrimLeft(s) && AllSpaces(before)
    ensures TrimLeft(s) != "" ==> !IsSpace(TrimLeft(s)[0])
  {
    before := "";
    if s != "" && IsSpace(s[0]) {
      before := TrimLeftExact(s[1..]);
      before := [s[0]] + before;
    }
  }

  // Trimming takes away exactly the spaces around a text.
  lemma TrimExact(s: string) returns (before: string, after: string)
    ensures s == before + Trim(s) + after && AllSpaces(before) && AllSpaces(after)
    ensures Trim(s) != "" ==> !IsSpace(Trim(s)[0]) && !IsSpace(Trim(s)[|Trim(s)| - 1])
  {
    before := TrimLeftExact(s);
    after := TrimRightExact(TrimLeft(s));
    assert Trim(s) != "" ==> Trim(s)[0] == TrimLeft(s)[0];
  }

  // And exactly the slashes at its end.
  lemma {:induction false} TrimSlashesExact(s: string) returns (after: string)
    ensures s == TrimSlashes(s) + after && forall i :: 0 <= i < |after| ==> after[i] == '/'
    ensures TrimSlashes(s) != "" ==> TrimSlashes(s)[|TrimSlashes(s)| - 1] != '/'
  {
    after := "";
    if s != "" && s[|s| - 1] == '/' {
      after := TrimSlashesExact(s[..|s| - 1]);
      after := after + "/";
    }
  }

  lemma LettersAreUpper(c: char)
    requires IsLetter(c)
    ensures Upper(c) == c && !IsSpace(c)
  {
    var i := PositionOf(c);
  }

  // A code typed in any mixture of upper and lower case, with spaces around it, is read
  // as the code itself.
  lemma TypedCode(code: string, typed: string, before: string, after: string)
    requires code != "" && IsCode(code) && ToUpper(typed) == code && AllSpaces(before) && AllSpaces(after)
    ensures Normalize(before + typed + after) == code
  {
    var s := before + typed + after;
    assert forall i :: 0 <= i < |before| ==> Upper(before[i]) == before[i];
    assert forall i :: 0 <= i < |after| ==> Upper(after[i]) == after[i];
    assert ToUpper(s) == before + (code + after) by {
      assert forall i :: 0 <= i < |code| ==> code[i] == Upper(typed[i]);
    }
    LettersAreUpper(code[0]);
    LettersAreUpper(code[|code| - 1]);
    TrimLeftPad(before, code + after);
    TrimRightPad(code, after);
  }

  // In particular the step is the identity on every generated code.
  lemma GeneratedIsNormal(random: seq<byte>)
    ensures Normalize(CodeOf(random)) == CodeOf(random)
  {
    var code := CodeOf(random);
    OnlyCodes(random);
    if code != "" {
      forall i | 0 <= i < |code|
        ensures Upper(code[i]) == code[i]
      {
        LettersAreUpper(code[i]);
      }
      assert ToUpper(code) == code;
      assert "" + code + "" == code;
      TypedCode(code, code, "", "");
    }
  }
}
