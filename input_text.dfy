/**
 * Normalisation of the text the user types on the home screen: JavaScript's
 * `String.prototype.trim` and the upper-casing applied to room codes.
 */
module InputText {
  import opened Wrappers

  /**
   * The characters `trim` removes: the ECMAScript WhiteSpace set (tab, vertical
   * tab, form feed, the byte-order mark and the space separators) and the line terminators.
   */
  predicate IsSpace(c: char) {
    || ('\t' <= c <= '\r')                // tab, line feed, vertical tab, form feed, carriage return
    || c == ' ' || c == '\U{00A0}' || c == '\U{1680}'
    || ('\U{2000}' <= c <= '\U{200A}')
    || c == '\U{2028}' || c == '\U{2029}' || c == '\U{202F}' || c == '\U{205F}'
    || c == '\U{3000}' || c == '\U{FEFF}'
  }

  predicate AllSpace(s: string) {
    forall k :: 0 <= k < |s| ==> IsSpace(s[k])
  }

  /** `s` with its leading white space removed: a suffix of `s` that does not start with white space. */
  function TrimStart(s: string): (r: string)
    ensures |r| <= |s| && r == s[|s| - |r|..]
    ensures AllSpace(s[..|s| - |r|])
    ensures r != [] ==> !IsSpace(r[0])
  {
    if |s| > 0 && IsSpace(s[0]) then
      var r := TrimStart(s[1..]);
      assert s[..|s| - |r|] == [s[0]] + s[1..][..|s| - 1 - |r|];
      r
    else s
  }

  /** `s` with its trailing white space removed: a prefix of `s` that does not end with white space. */
  function TrimEnd(s: string): (r: string)
    ensures |r| <= |s| && r == s[..|r|]
    ensures AllSpace(s[|r|..])
    ensures r != [] ==> !IsSpace(r[|r| - 1])
  {
    if |s| > 0 && IsSpace(s[|s| - 1]) then
      var r := TrimEnd(s[..|s| - 1]);
      assert s[|r|..] == s[..|s| - 1][|r|..] + [s[|s| - 1]];
      r
    else s
  }

  /**
   * JavaScript's `s.trim()`: what lies between the leading and the trailing white space
   * of `s`; it neither starts nor ends with white space.
   */
  function Trim(s: string): (r: string)
    ensures |r| <= |s|
    ensures var a := |s| - |TrimStart(s)|;
      && |r| <= |s| - a && r == s[a..][..|r|]
      && AllSpace(s[..a]) && AllSpace(s[a..][|r|..])
    ensures r != [] ==> !IsSpace(r[0]) && !IsSpace(r[|r| - 1])
  {
    var r := TrimEnd(TrimStart(s));
    assert r == TrimStart(s)[..|r|];
    r
  }

  /** A text is blank (what `!s.trim()` tests) exactly when every character of it is white space. */
  lemma {:induction false} BlankIffAllSpace(s: string)
    ensures Trim(s) == [] <==> AllSpace(s)
  {
  }

  /** A text that neither starts nor ends with white space is its own trim. */
  lemma TrimKeepsTrimmed(s: string)
    requires s != [] ==> !IsSpace(s[0]) && !IsSpace(s[|s| - 1])
    ensures Trim(s) == s
  {
    assert TrimStart(s) == s;
  }

  /** Trimming an already trimmed text changes nothing. */
  lemma {:induction false} TrimIdempotent(s: string)
    ensures Trim(Trim(s)) == Trim(s)
  {
  }

  /** `toUpperCase` on one character; only the ASCII letters a to z are mapped. */
  function UpperChar(c: char): char {
    if 'a' <= c <= 'z' then (c as int - 32) as char else c
  }

  /** `s.toUpperCase()` over ASCII: the same length, each character upper-cased in place. */
  function ToUpper(s: string): (r: string)
    ensures |r| == |s|
  {
    if s == [] then [] else [UpperChar(s[0])] + ToUpper(s[1..])
  }

  lemma {:induction false} ToUpperAt(s: string, k: nat)
    requires k < |s|
    ensures ToUpper(s)[k] == UpperChar(s[k])
  {
    if k > 0 { ToUpperAt(s[1..], k - 1); }
  }

  /** Upper-casing leaves no lower-case ASCII letter behind and is idempotent. */
  lemma {:induction false} ToUpperNormal(s: string)
    ensures forall k :: 0 <= k < |s| ==> !('a' <= ToUpper(s)[k] <= 'z')
    ensures ToUpper(ToUpper(s)) == ToUpper(s)
  {
    var u := ToUpper(s);
    forall k | 0 <= k < |s| ensures u[k] == UpperChar(s[k]) && ToUpper(u)[k] == u[k] {
      ToUpperAt(s, k);
      ToUpperAt(u, k);
    }
  }

  /** Upper-casing maps white space to white space and nothing else to it. */
  lemma {:induction false} ToUpperKeepsSpace(s: string)
    ensures forall k :: 0 <= k < |s| ==> (IsSpace(ToUpper(s)[k]) <==> IsSpace(s[k]))
  {
    forall k | 0 <= k < |s| ensures ToUpper(s)[k] == UpperChar(s[k]) {
      ToUpperAt(s, k);
    }
  }

  /** The room code a join request carries: the typed room id trimmed, then upper-cased character by character. */
  function RoomCode(s: string): (r: string)
    ensures |r| == |Trim(s)| && forall k :: 0 <= k < |r| ==> r[k] == UpperChar(Trim(s)[k])
    ensures |r| <= |s|
    ensures r != [] ==> !IsSpace(r[0]) && !IsSpace(r[|r| - 1])
    ensures forall k :: 0 <= k < |r| ==> !('a' <= r[k] <= 'z')
  {
    var t := Trim(s);
    forall k | 0 <= k < |t| ensures ToUpper(t)[k] == UpperChar(t[k]) {
      ToUpperAt(t, k);
    }
    ToUpperKeepsSpace(t);
    ToUpperNormal(t);
    ToUpper(t)
  }

  /**
   * A room code is already normal: it has no surrounding white space and no lower-case
   * ASCII letter, normalising it again gives it back, and it is empty only for a blank input.
   */
  lemma {:induction false} RoomCodeNormal(s: string)
    ensures Trim(RoomCode(s)) == RoomCode(s)
    ensures RoomCode(RoomCode(s)) == RoomCode(s)
    ensures RoomCode(s) == [] <==> AllSpace(s)
    ensures forall k :: 0 <= k < |RoomCode(s)| ==> !('a' <= RoomCode(s)[k] <= 'z')
  {
    var t, u := Trim(s), RoomCode(s);
    assert u == ToUpper(t);
    BlankIffAllSpace(s);
    TrimKeepsTrimmed(u);
    ToUpperNormal(t);
    assert RoomCode(u) == ToUpper(u);
  }

  /** A join request's fields after the check both join buttons make. */
  datatype JoinFields = JoinFields(roomCode: string, name: string)

  /**
   * The join check: a blank name or a blank room id refuses the join; otherwise the
   * room id is sent trimmed and upper-cased and the name trimmed.
   */
  function CheckJoin(name: string, roomId: string): (r: Option<JoinFields>)
    ensures r.None? <==> AllSpace(name) || AllSpace(roomId)
  {
    BlankIffAllSpace(name);
    BlankIffAllSpace(roomId);
    if Trim(name) == [] || Trim(roomId) == [] then None
    else Some(JoinFields(RoomCode(roomId), Trim(name)))
  }

  /**
   * A join is refused exactly when the name or the room id is all white space, and an
   * accepted join carries a non-empty name without surrounding white space and a
   * non-empty room code that is already in normal form.
   */
  lemma {:induction false} CheckJoinSound(name: string, roomId: string)
    ensures CheckJoin(name, roomId).None? <==> AllSpace(name) || AllSpace(roomId)
    ensures CheckJoin(name, roomId).Some? ==>
      var f := CheckJoin(name, roomId).value;
      && f.name != [] && Trim(f.name) == f.name
      && f.roomCode != [] && RoomCode(f.roomCode) == f.roomCode
  {
    if CheckJoin(name, roomId).Some? {
      BlankIffAllSpace(roomId);
      TrimKeepsTrimmed(Trim(name));
      RoomCodeNormal(roomId);
    }
  }
}
