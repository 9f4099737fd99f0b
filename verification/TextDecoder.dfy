/** `new TextDecoder().decode(..)` of a browser: the UTF-8 decode algorithm of the WHATWG Encoding
    Standard. The resulting text is given by its own UTF-8 bytes. */
module TextDecoder {
  import opened Bytes
  import Utf8

  /** U+FEFF, dropped from the start of the input. */
  const MARK: Data := [0xEF, 0xBB, 0xBF]

  /** U+FFFD, put in for each ill-formed sequence. */
  const REPLACEMENT: Data := [0xEF, 0xBF, 0xBD]

  predicate Marked(s: Data) {
    |s| >= 3 && s[..3] == MARK
  }

  /** How many bytes one replacement character stands for. */
  function Malformed(s: Data): (n: nat)
    requires s != [] && Utf8.CharLen(s) == 0
    ensures 1 <= n <= |s|
  {
    if |s| >= 2 && Utf8.Lead3(s[0], s[1]) then 2
    else if |s| >= 3 && Utf8.Lead4(s[0], s[1]) && Utf8.Tail(s[2]) then 3
    else if |s| >= 2 && Utf8.Lead4(s[0], s[1]) then 2
    else 1
  }

  function Repair(s: Data): Data {
    if s == [] then []
    else
      var n := Utf8.CharLen(s);
      if n > 0 then s[..n] + Repair(s[n..]) else REPLACEMENT + Repair(s[Malformed(s)..])
  }

  function Decode(s: Data): Data {
    Repair(if Marked(s) then s[3..] else s)
  }

  /** What survives text decoding unchanged. */
  predicate Survives(s: Data) {
    Utf8.Valid(s) && !Marked(s)
  }

  lemma CharThen(s: Data, t: Data)
    requires Utf8.CharLen(s) > 0
    ensures Utf8.CharLen(s[..Utf8.CharLen(s)] + t) == Utf8.CharLen(s)
    ensures Utf8.Valid(s[..Utf8.CharLen(s)] + t) <==> Utf8.Valid(t)
  {
    assert (s[..Utf8.CharLen(s)] + t)[Utf8.CharLen(s)..] == t;
  }

  /** Decoding always gives text. */
  lemma {:induction false} RepairIsText(s: Data)
    ensures Utf8.Valid(Repair(s))
  {
    if s != [] {
      var n := Utf8.CharLen(s);
      if n > 0 {
        RepairIsText(s[n..]);
        CharThen(s, Repair(s[n..]));
      } else {
        RepairIsText(s[Malformed(s)..]);
        CharThen(REPLACEMENT, Repair(s[Malformed(s)..]));
        assert REPLACEMENT[..3] == REPLACEMENT;
      }
    }
  }

  lemma {:induction false} TextIsNotRepaired(s: Utf8.Str)
    ensures Repair(s) == s
  {
    if s != [] {
      TextIsNotRepaired(s[Utf8.CharLen(s)..]);
    }
  }

  /** Text loses a leading U+FEFF and nothing else. */
  lemma TextLosesItsMark(s: Utf8.Str)
    ensures Decode(s) == if Marked(s) then s[3..] else s
    ensures Utf8.Valid(Decode(s))
  {
    if Marked(s) {
      assert Utf8.CharLen(s) == 3;
      TextIsNotRepaired(s[3..]);
    } else {
      TextIsNotRepaired(s);
    }
  }

  /** Bytes decode to themselves exactly if they are text without a leading U+FEFF. */
  lemma DecodesToItselfIff(s: Data)
    ensures Decode(s) == s <==> Survives(s)
  {
    RepairIsText(if Marked(s) then s[3..] else s);
    if Utf8.Valid(s) {
      TextLosesItsMark(s);
    }
  }

  // `s` is the beginning of some longer character.
  ghost predicate IsBeginning(s: Data) {
    exists t: Data :: Utf8.CharLen(s + t) > |s|
  }

  /** One replacement stands for as many bytes as could still have begun a character, but at least one. */
  lemma MalformedIsMaximal(s: Data)
    requires s != [] && Utf8.CharLen(s) == 0
    ensures 1 <= Malformed(s) <= |s|
    ensures Malformed(s) > 1 ==> IsBeginning(s[..Malformed(s)])
    ensures Malformed(s) < |s| ==> !IsBeginning(s[..Malformed(s) + 1])
  {
    var n := Malformed(s);
    if n > 1 {
      var t: Data := if s[0] < 0xF0 || n == 3 then [0x80] else [0x80, 0x80];
      assert Utf8.CharLen(s[..n] + t) > n;
    }
    if n < |s| {
      var head := s[..n + 1];
      forall t: Data
        ensures Utf8.CharLen(head + t) <= |head|
      {
        var u := head + t;
        assert forall i :: 0 <= i < n + 1 ==> u[i] == s[i];
      }
    }
  }

  lemma ReplacementComesFirst(s: Data)
    requires s != [] && Utf8.CharLen(s) == 0
    ensures Repair(s) != [] && Repair(s)[0] == 0xEF
  {
  }

  /** A result in ASCII only was never repaired. */
  lemma {:induction false} AsciiIsNotRepaired(s: Data)
    requires forall i :: 0 <= i < |Repair(s)| ==> Repair(s)[i] < 0x80
    ensures Repair(s) == s
  {
    if s != [] && Utf8.CharLen(s) > 0 {
      var n := Utf8.CharLen(s);
      forall i | 0 <= i < |Repair(s[n..])|
        ensures Repair(s[n..])[i] < 0x80
      {
        assert Repair(s)[n + i] == Repair(s[n..])[i];
      }
      AsciiIsNotRepaired(s[n..]);
    } else if s != [] {
      ReplacementComesFirst(s);
    }
  }
}
