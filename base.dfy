/** Values shared by the resolver, the retriever and the command-line front end:
    optional values, results carrying the exceptions the client raises, and the
    few sequence and string operations Python gives the source for free. */
module Base {

  datatype Option<+T> = None | Some(value: T)

  /** The exceptions that leave a call of the client. `SourceDoesNotExist` and
      `InvalidSlackToken` are the two domain errors of the client; `Crash` stands
      for every other exception (a TypeError, a KeyError, a failed shell command)
      that the program does not catch. */
  datatype Error =
    | SourceDoesNotExist(name: string)
    | InvalidSlackToken(token: string)
    | Crash(reason: string)

  datatype Result<+T> = Ok(value: T) | Err(error: Error)

  /** Python truthiness of an optional string: neither `None` nor `""`. */
  predicate Given(s: Option<string>) {
    s.Some? && s.value != ""
  }

  function Min(a: int, b: int): int {
    if a <= b then a else b
  }

  /** `s[::-1]` */
  function Reverse<T>(s: seq<T>): (r: seq<T>)
    ensures |r| == |s|
    ensures forall i :: 0 <= i < |s| ==> r[i] == s[|s| - 1 - i]
  {
    if s == [] then [] else Reverse(s[1..]) + [s[0]]
  }

  lemma ReverseAppend<T>(a: seq<T>, b: seq<T>)
    ensures Reverse(a + b) == Reverse(b) + Reverse(a)
  {
    var l, r := Reverse(a + b), Reverse(b) + Reverse(a);
    assert |l| == |r|;
    forall i | 0 <= i < |l| ensures l[i] == r[i] {
      if i < |b| {
        assert l[i] == (a + b)[|a| + |b| - 1 - i];
      } else {
        assert l[i] == (a + b)[|a| + |b| - 1 - i];
      }
    }
  }

  /** Python's `s[-n:]`: for a positive `n` the last `n` entries (all of `s`
      when it is shorter); for `n <= 0` the slice starts at index `-n`. */
  function SliceFromEnd<T>(s: seq<T>, n: int): (r: seq<T>)
    ensures n > 0 ==> |r| == Min(n, |s|) && r == s[|s| - |r|..]
    ensures n <= 0 ==> r == s[Min(-n, |s|)..]
  {
    if n > 0 then (if n <= |s| then s[|s| - n..] else s) else s[Min(-n, |s|)..]
  }

  /** `''.join(parts)` */
  function Concat(parts: seq<string>): string {
    if parts == [] then "" else parts[0] + Concat(parts[1..])
  }

  /** Joining distributes over concatenation: the parts appear in order,
      each unchanged, with nothing between them. */
  lemma {:induction false} ConcatAppend(a: seq<string>, b: seq<string>)
    ensures Concat(a + b) == Concat(a) + Concat(b)
  {
    if a == [] {
      assert a + b == b;
    } else {
      assert (a + b)[0] == a[0] && (a + b)[1..] == a[1..] + b;
      ConcatAppend(a[1..], b);
    }
  }

  /** The characters Python 3's `str.strip()` removes (`str.isspace`). */
  predicate IsSpace(c: char) {
    c == ' ' || c == '\t' || c == '\n' || c == '\r' || c == '\U{0B}' || c == '\U{0C}'
    || ('\U{1C}' <= c <= '\U{1F}') || c == '\U{85}' || c == '\U{A0}' || c == '\U{1680}'
    || ('\U{2000}' <= c <= '\U{200A}') || c == '\U{2028}' || c == '\U{2029}'
    || c == '\U{202F}' || c == '\U{205F}' || c == '\U{3000}'
  }

  /** `s.lstrip()`: drops the leading whitespace and nothing else. */
  function TrimStart(s: string): (r: string)
    ensures |r| <= |s|
  {
    if s != [] && IsSpace(s[0]) then TrimStart(s[1..]) else s
  }

  lemma {:induction false} TrimStartSlice(s: string)
    ensures var r := TrimStart(s);
      r == s[|s| - |r|..] && (r == [] || !IsSpace(r[0])) &&
      forall k :: 0 <= k < |s| - |r| ==> IsSpace(s[k])
  {
    if s != [] && IsSpace(s[0]) {
      TrimStartSlice(s[1..]);
    }
  }

  /** `s.rstrip()`: drops the trailing whitespace and nothing else. */
  function TrimEnd(s: string): (r: string)
    ensures |r| <= |s|
  {
    if s != [] && IsSpace(s[|s| - 1]) then TrimEnd(s[..|s| - 1]) else s
  }

  lemma {:induction false} TrimEndSlice(s: string)
    ensures var r := TrimEnd(s);
      r == s[..|r|] && (r == [] || !IsSpace(r[|r| - 1])) &&
      forall k :: |r| <= k < |s| ==> IsSpace(s[k])
  {
    if s != [] && IsSpace(s[|s| - 1]) {
      TrimEndSlice(s[..|s| - 1]);
    }
  }

  /** `s.strip()` */
  function Strip(s: string): string {
    TrimEnd(TrimStart(s))
  }

  /** `s.strip()` is the slice of `s` between its leading and its trailing
      whitespace; it is empty exactly when `s` is whitespace only. */
  lemma StripSlice(s: string)
    ensures var r := Strip(s); var i := |s| - |TrimStart(s)|;
      i + |r| <= |s| && r == s[i..i + |r|] &&
      (forall k :: 0 <= k < i ==> IsSpace(s[k])) &&
      (forall k :: i + |r| <= k < |s| ==> IsSpace(s[k])) &&
      (r == [] || (!IsSpace(r[0]) && !IsSpace(r[|r| - 1]))) &&
      (r == [] <==> forall k :: 0 <= k < |s| ==> IsSpace(s[k]))
  {
    var t := TrimStart(s);
    var r := TrimEnd(t);
    TrimStartSlice(s);
    TrimEndSlice(t);
    assert r == s[|s| - |t|..][..|r|];
    if r == [] {
      assert t == [];
    } else {
      assert r[0] == t[0];
    }
  }
}
