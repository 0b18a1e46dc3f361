/** Small vocabulary shared by every module of the model. */
module Common {

  datatype Option<+T> = None | Some(value: T)

  datatype Result<+T, +E> = Ok(value: T) | Err(error: E)

  /** White space as Go's strings.TrimSpace understands it. */
  predicate IsSpace(c: char) {
    || c == ' ' || '\t' <= c <= '\r' || c == '\U{0085}' || c == '\U{00a0}' || c == '\U{1680}'
    || '\U{2000}' <= c <= '\U{200a}' || c == '\U{2028}' || c == '\U{2029}' || c == '\U{202f}' || c == '\U{205f}' || c == '\U{3000}'
  }

  function TrimLeft(s: string): (r: string)
    ensures r == "" || !IsSpace(r[0])
    ensures s != "" && !IsSpace(s[0]) ==> r == s
  {
    if s == "" || !IsSpace(s[0]) then s else TrimLeft(s[1..])
  }

  function TrimRight(s: string): (r: string)
    ensures r <= s
    ensures r == "" || !IsSpace(r[|r| - 1])
    ensures s != "" && !IsSpace(s[|s| - 1]) ==> r == s
  {
    if s == "" || !IsSpace(s[|s| - 1]) then s else TrimRight(s[..|s| - 1])
  }

  /** strings.TrimSpace. */
  function Trim(s: string): (r: string)
    ensures r == "" || (!IsSpace(r[0]) && !IsSpace(r[|r| - 1]))
  {
    TrimRight(TrimLeft(s))
  }

  predicate Trimmed(s: string) {
    s == "" || (!IsSpace(s[0]) && !IsSpace(s[|s| - 1]))
  }

  /** What trimming leaves alone is exactly what it produces. */
  lemma TrimFixesTrimmed(s: string)
    ensures Trim(s) == s <==> Trimmed(s)
  {
    if Trimmed(s) && s != "" {
      assert TrimLeft(s) == s;
    }
  }

  lemma {:induction false} TrimIsTrimmed(s: string)
    ensures Trimmed(Trim(s)) && Trim(Trim(s)) == Trim(s)
  {
    LeftIsTrimmed(s);
    RightIsTrimmed(TrimLeft(s));
    TrimFixesTrimmed(Trim(s));
  }

  lemma {:induction false} LeftIsTrimmed(s: string)
    ensures TrimLeft(s) != "" ==> !IsSpace(TrimLeft(s)[0])
  {
    if s != "" && IsSpace(s[0]) {
      LeftIsTrimmed(s[1..]);
    }
  }

  lemma {:induction false} RightIsTrimmed(s: string)
    ensures TrimRight(s) <= s && (TrimRight(s) != "" ==> !IsSpace(TrimRight(s)[|TrimRight(s)| - 1]))
  {
    if s != "" && IsSpace(s[|s| - 1]) {
      RightIsTrimmed(s[..|s| - 1]);
    }
  }

  /** len of a Go string: the bytes of its UTF-8 form. */
  function ByteLength(s: string): nat {
    if s == "" then 0
    else
      var c := s[0] as int;
      (if c < 0x80 then 1 else if c < 0x800 then 2 else if c < 0x1_0000 then 3 else 4) + ByteLength(s[1..])
  }

  ghost predicate NulFree(s: string) {
    forall i | 0 <= i < |s| :: s[i] != '\0'
  }

  /** A key joined with NUL separators determines its parts when all but the last are free of NUL. */
  lemma JoinedKeyIsInjective(a: string, b: string, c: string, d: string, e: string, f: string)
    requires NulFree(a) && NulFree(b) && NulFree(d) && NulFree(e)
    requires a + "\0" + b + "\0" + c == d + "\0" + e + "\0" + f
    ensures (a, b, c) == (d, e, f)
  {
    assert a + "\0" + b + "\0" + c == a + "\0" + (b + "\0" + c);
    assert d + "\0" + e + "\0" + f == d + "\0" + (e + "\0" + f);
    FirstPartIsInjective(a, b + "\0" + c, d, e + "\0" + f);
    FirstPartIsInjective(b, c, e, f);
  }

  lemma FirstPartIsInjective(a: string, rest: string, d: string, rest': string)
    requires NulFree(a) && NulFree(d)
    requires a + "\0" + rest == d + "\0" + rest'
    ensures a == d && rest == rest'
  {
    var k, k' := a + "\0" + rest, d + "\0" + rest';
    assert k[|a|] == '\0' && k'[|d|] == '\0';
    assert forall i | 0 <= i < |a| :: k[i] == a[i];
    assert forall i | 0 <= i < |d| :: k'[i] == d[i];
    assert |a| == |d|;
    assert a == k[..|a|] && d == k'[..|d|];
    assert rest == k[|a| + 1..] && rest' == k'[|d| + 1..];
  }

  /** The encoding of a character takes one byte up to U+007F, two up to U+07FF, three up to U+FFFF and four beyond. */
  lemma CharacterLengths(c: char)
    ensures ByteLength([c]) == 1 <==> c <= '\U{007F}'
    ensures ByteLength([c]) == 2 <==> '\U{0080}' <= c <= '\U{07FF}'
    ensures ByteLength([c]) == 3 <==> '\U{0800}' <= c <= '\U{FFFF}'
    ensures ByteLength([c]) == 4 <==> '\U{10000}' <= c
  {
    assert [c][1..] == "";
  }

  /** ASCII text has as many bytes as characters. */
  lemma {:induction false} AsciiLength(s: string)
    requires forall i | 0 <= i < |s| :: s[i] < '\U{0080}'
    ensures ByteLength(s) == |s|
  {
    if s != "" {
      AsciiLength(s[1..]);
    }
  }

  // ---------------------------------------------------------------- the alphabet of identifiers

  /** The identifiers of agents and leases are made of ASCII letters and digits and four marks. */
  lemma CharactersAre(c: char)
    ensures IdentifierCharacter(c) <==> 'a' <= c <= 'z' || 'A' <= c <= 'Z' || '0' <= c <= '9' || c in "-_.:"
  {
    SmallLettersAre(c);
    CapitalsAre(c);
  }

  lemma SmallLettersAre(c: char)
    ensures c in "abcdefghijklmnopqrstuvwxyz" <==> 'a' <= c <= 'z'
  {
  }

  lemma CapitalsAre(c: char)
    ensures c in "ABCDEFGHIJKLMNOPQRSTUVWXYZ" <==> 'A' <= c <= 'Z'
  {
  }

  predicate IdentifierCharacter(c: char) {
    c in "abcdefghijklmnopqrstuvwxyz" || c in "ABCDEFGHIJKLMNOPQRSTUVWXYZ" || c in "0123456789" || c in "-_.:"
  }
}
