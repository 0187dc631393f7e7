/** The A2S_INFO reply recogniser and the query loops with their challenge exchange
    (Valve Server Queries, A2S_INFO). */
module A2S {
  import opened Basics

  newtype byte = x: int | 0 <= x < 256

  const INFO: byte := 0x49
  const CHALLENGE: byte := 0x41
  const HEADER: nat := 6
  const STRINGS: nat := 4

  // ---- The reply format ------------------------------------------------------------

  /** A reply: six bytes of header, type and protocol; the strings server name, map,
      folder and game; app ID, player counts, server type, environment, visibility
      and VAC; the version; extra data. */
  datatype Info =
    Info(header: seq<byte>, strings: seq<seq<byte>>, fixed: seq<byte>, version: seq<byte>, tail: seq<byte>)
  {
    predicate Valid() {
      && |header| == 6 && header[4] == INFO && |fixed| == 9
      && |strings| == STRINGS && AllNulFree(strings) && NulFree(version)
    }
  }

  predicate NulFree(s: seq<byte>) {
    forall i | 0 <= i < |s| :: s[i] != 0
  }

  predicate AllNulFree(strings: seq<seq<byte>>) {
    strings == [] || (NulFree(strings[0]) && AllNulFree(strings[1..]))
  }

  function Terminated(s: seq<byte>): seq<byte> {
    s + [0]
  }

  function Join(strings: seq<seq<byte>>): seq<byte> {
    if strings == [] then [] else Terminated(strings[0]) + Join(strings[1..])
  }

  function Encode(r: Info): seq<byte> {
    r.header + (Join(r.strings) + (r.fixed + (Terminated(r.version) + r.tail)))
  }

  /** The first NUL at or after `from`, or the end. */
  function NextNul(s: seq<byte>, from: nat): (n: nat)
    requires from <= |s|
    ensures from <= n <= |s| && (n < |s| ==> s[n] == 0)
    ensures forall i | from <= i < n :: s[i] != 0
    decreases |s| - from
  {
    if from == |s| || s[from] == 0 then from else NextNul(s, from + 1)
  }

  lemma {:induction false} NextNulIs(s: seq<byte>, from: nat, n: nat)
    requires from <= n < |s| && s[n] == 0 && forall i | from <= i < n :: s[i] != 0
    ensures NextNul(s, from) == n
    decreases n - from
  {
    if from < n { NextNulIs(s, from + 1, n); }
  }

  /** Where `n` strings that begin at `from` end. */
  function Skip(s: seq<byte>, from: nat, n: nat): (r: Option<nat>)
    requires from <= |s|
    ensures r.Some? ==> from <= r.value <= |s|
    decreases n
  {
    if n == 0 then Some(from)
    else if NextNul(s, from) == |s| then None
    else Skip(s, NextNul(s, from) + 1, n - 1)
  }

  /** Those strings. */
  function Pieces(s: seq<byte>, from: nat, n: nat): seq<seq<byte>>
    requires from <= |s| && Skip(s, from, n).Some?
    decreases n
  {
    if n == 0 then [] else [s[from..NextNul(s, from)]] + Pieces(s, NextNul(s, from) + 1, n - 1)
  }

  function Decode(s: seq<byte>): Option<Info> {
    if |s| < HEADER || s[4] != INFO || Skip(s, HEADER, STRINGS).None? then None
    else DecodeRest(s, Pieces(s, HEADER, STRINGS), Skip(s, HEADER, STRINGS).value)
  }

  /** What follows the strings, from position `at` on. */
  function DecodeRest(s: seq<byte>, strings: seq<seq<byte>>, at: nat): Option<Info>
    requires HEADER <= at <= |s|
  {
    if |s| - at < 9 || NextNul(s, at + 9) == |s| then None
    else
      var end := NextNul(s, at + 9);
      Some(Info(s[..HEADER], strings, s[at..at + 9], s[at + 9..end], s[end + 1..]))
  }

  // ---- Slices -------------------------------------------------------------------------

  lemma Cut(s: seq<byte>, i: nat, j: nat)
    requires i <= j <= |s|
    ensures s[i..] == s[i..j] + s[j..]
  {
  }

  lemma CutString(s: seq<byte>, i: nat, j: nat)
    requires i <= j < |s| && s[j] == 0
    ensures s[i..] == Terminated(s[i..j]) + s[j + 1..]
  {
  }

  /** Where the rest of `s` begins with `a`, its parts are where they should be. */
  lemma Peel(s: seq<byte>, i: nat, a: seq<byte>, b: seq<byte>)
    requires i <= |s| && s[i..] == a + b
    ensures i + |a| <= |s| && s[i..i + |a|] == a && s[i + |a|..] == b
  {
    assert |s[i..]| == |a| + |b|;
    assert s[i..][..|a|] == s[i..i + |a|] && s[i..][|a|..] == s[i + |a|..];
  }

  /** Where the rest of `s` begins with a string, that is where its first NUL is. */
  lemma PeelString(s: seq<byte>, i: nat, a: seq<byte>, b: seq<byte>)
    requires i <= |s| && s[i..] == Terminated(a) + b && NulFree(a)
    ensures NextNul(s, i) == i + |a| < |s| && s[i..i + |a|] == a && s[i + |a| + 1..] == b
  {
    Peel(s, i, Terminated(a), b);
    assert Terminated(a)[..|a|] == a;
    assert s[i..i + |a|] == s[i..i + |a| + 1][..|a|];
    assert s[i + |a|] == s[i..i + |a| + 1][|a|];
    forall k | i <= k < i + |a| ensures s[k] != 0 { assert s[k] == a[k - i]; }
    NextNulIs(s, i, i + |a|);
  }

  lemma JoinMore(first: seq<byte>, others: seq<seq<byte>>, rest: seq<byte>)
    ensures Join([first] + others) + rest == Terminated(first) + (Join(others) + rest)
  {
    assert ([first] + others)[1..] == others;
  }

  // ---- Round trips ----------------------------------------------------------------------

  lemma {:induction false} PiecesJoin(s: seq<byte>, from: nat, n: nat)
    requires from <= |s| && Skip(s, from, n).Some?
    ensures |Pieces(s, from, n)| == n && AllNulFree(Pieces(s, from, n))
    ensures s[from..] == Join(Pieces(s, from, n)) + s[Skip(s, from, n).value..]
    decreases n
  {
    if n > 0 {
      var end := NextNul(s, from);
      PiecesJoin(s, end + 1, n - 1);
      PieceJoins(s, from, end, Pieces(s, end + 1, n - 1), Skip(s, from, n).value);
    }
  }

  lemma PieceJoins(s: seq<byte>, from: nat, end: nat, others: seq<seq<byte>>, at: nat)
    requires from <= end < at <= |s| && s[end] == 0 && (forall i | from <= i < end :: s[i] != 0)
    requires AllNulFree(others) && s[end + 1..] == Join(others) + s[at..]
    ensures AllNulFree([s[from..end]] + others)
    ensures s[from..] == Join([s[from..end]] + others) + s[at..]
  {
    JoinMore(s[from..end], others, s[at..]);
    CutString(s, from, end);
    assert ([s[from..end]] + others)[1..] == others;
  }

  lemma {:induction false} JoinedPieces(s: seq<byte>, from: nat, strings: seq<seq<byte>>, rest: seq<byte>)
    requires from <= |s| && s[from..] == Join(strings) + rest && AllNulFree(strings)
    ensures Skip(s, from, |strings|) == Some(|s| - |rest|) && Pieces(s, from, |strings|) == strings
    ensures s[|s| - |rest|..] == rest
    decreases |strings|
  {
    if strings == [] {
      Peel(s, from, [], rest);
    } else {
      var first, others := strings[0], strings[1..];
      assert strings == [first] + others;
      JoinMore(first, others, rest);
      PeelString(s, from, first, Join(others) + rest);
      JoinedPieces(s, from + |first| + 1, others, rest);
    }
  }

  /** Every reply in the format decodes to itself. */
  lemma DecodeOfEncode(r: Info)
    requires r.Valid()
    ensures Decode(Encode(r)) == Some(r)
  {
    var rest := r.fixed + (Terminated(r.version) + r.tail);
    HeaderOf(Encode(r), r.header, Join(r.strings) + rest);
    StringsDecode(Encode(r), r, rest);
  }

  lemma HeaderOf(s: seq<byte>, header: seq<byte>, more: seq<byte>)
    requires s == header + more && |header| == HEADER
    ensures |s| >= HEADER && s[..HEADER] == header && s[HEADER..] == more && s[4] == header[4]
  {
  }

  lemma StringsDecode(s: seq<byte>, r: Info, rest: seq<byte>)
    requires r.Valid() && rest == r.fixed + (Terminated(r.version) + r.tail)
    requires |s| >= HEADER && s[..HEADER] == r.header && s[HEADER..] == Join(r.strings) + rest && s[4] == INFO
    ensures Decode(s) == Some(r)
  {
    JoinedPieces(s, HEADER, r.strings, rest);
    RestDecodes(s, r, |s| - |rest|);
  }

  lemma RestDecodes(s: seq<byte>, r: Info, at: nat)
    requires HEADER <= at <= |s| && s[at..] == r.fixed + (Terminated(r.version) + r.tail)
    requires s[..HEADER] == r.header && |r.fixed| == 9 && NulFree(r.version)
    ensures DecodeRest(s, r.strings, at) == Some(r)
  {
    Peel(s, at, r.fixed, Terminated(r.version) + r.tail);
    PeelString(s, at + 9, r.version, r.tail);
  }

  /** Whatever decodes is in the format, and encodes back to the very bytes. */
  lemma EncodeOfDecode(s: seq<byte>)
    requires Decode(s).Some?
    ensures Decode(s).value.Valid() && Encode(Decode(s).value) == s
  {
    PiecesJoin(s, HEADER, STRINGS);
    RestIsValid(s, Pieces(s, HEADER, STRINGS), Skip(s, HEADER, STRINGS).value, Decode(s).value);
    RestEncodes(s, Pieces(s, HEADER, STRINGS), Skip(s, HEADER, STRINGS).value, Decode(s).value);
  }

  lemma RestEncodes(s: seq<byte>, strings: seq<seq<byte>>, at: nat, r: Info)
    requires HEADER <= at <= |s| && DecodeRest(s, strings, at) == Some(r)
    requires s[HEADER..] == Join(strings) + s[at..]
    ensures Encode(r) == s
  {
    Reassembled(s, strings, at, NextNul(s, at + 9));
  }

  lemma RestIsValid(s: seq<byte>, strings: seq<seq<byte>>, at: nat, r: Info)
    requires HEADER <= at <= |s| && DecodeRest(s, strings, at) == Some(r) && s[4] == INFO
    requires AllNulFree(strings) && |strings| == STRINGS
    ensures r.Valid()
  {
  }

  lemma Reassembled(s: seq<byte>, strings: seq<seq<byte>>, at: nat, end: nat)
    requires HEADER <= at && at + 9 <= end < |s| && s[end] == 0 && s[HEADER..] == Join(strings) + s[at..]
    ensures Encode(Info(s[..HEADER], strings, s[at..at + 9], s[at + 9..end], s[end + 1..])) == s
  {
    CutString(s, at + 9, end);
    Cut(s, at, at + 9);
    assert s == s[..HEADER] + s[HEADER..];
  }

  ghost predicate IsInfo(s: seq<byte>) {
    exists r: Info :: r.Valid() && Encode(r) == s
  }

  /** The format is unambiguous. */
  lemma EncodeIsInjective(r: Info, q: Info)
    requires r.Valid() && q.Valid() && Encode(r) == Encode(q)
    ensures r == q
  {
    DecodeOfEncode(r);
    DecodeOfEncode(q);
  }

  lemma InfoIffDecodes(s: seq<byte>)
    ensures IsInfo(s) <==> Decode(s).Some?
  {
    if r: Info :| r.Valid() && Encode(r) == s { DecodeOfEncode(r); }
    if Decode(s).Some? { EncodeOfDecode(s); }
  }

  // ---- The recogniser ---------------------------------------------------------------

  /** `validA2SInfo` accepts exactly the replies in the format. */
  method ValidA2SInfo(response: seq<byte>) returns (ok: bool)
    ensures ok <==> IsInfo(response)
  {
    InfoIffDecodes(response);
    if |response| < 6 || response[4] != INFO { return false; }
    var offset := 6;
    for k := 0 to STRINGS
      invariant 6 <= offset <= |response| && Skip(response, HEADER, STRINGS) == Skip(response, offset, STRINGS - k)
    {
      var end := FindNul(response, offset);
      if end >= |response| { return false; }
      offset := end + 1;
    }
    if |response| - offset < 9 { return false; }
    offset := offset + 9;
    offset := FindNul(response, offset);
    ok := offset < |response|;
  }

  /** The inner loop: it stops at the first NUL, or at the end. */
  method FindNul(response: seq<byte>, offset: nat) returns (end: nat)
    requires offset <= |response|
    ensures end == NextNul(response, offset)
  {
    end := offset;
    while end < |response| && response[end] != 0
      invariant offset <= end <= |response| && NextNul(response, offset) == NextNul(response, end)
    {
      end := end + 1;
    }
  }
}
