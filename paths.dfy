/**
 * The path and string helpers of the module: `tokenize`, `remove_date_from_uri`,
 * `get_base_uri` and `find_and_replace_string`.
 */
module Paths {
  import opened Wrappers
  import opened Strings

  /** Apache's MAX_STRING_LEN (8192): the size of the zeroed buffer `remove_date_from_uri` fills. */
  const MaxStringLen: nat := 8192

  // ---- tokenize ----

  /** The length of the run of non-`sep` characters at the start of `s`. */
  function WordLength(s: string, sep: char): (n: nat)
    ensures n <= |s|
    ensures forall i :: 0 <= i < n ==> s[i] != sep
    ensures n < |s| ==> s[n] == sep
  {
    if s == [] || s[0] == sep then 0 else 1 + WordLength(s[1..], sep)
  }

  /**
   * The maximal non-empty runs of characters other than `sep`, in order: the words
   * `tokenize` collects with `ap_getword` (which skips every separator after a word), and
   * the tokens `apr_strtok` returns.
   */
  function Segments(s: string, sep: char): seq<string>
    decreases |s|
  {
    if s == [] then []
    else if s[0] == sep then Segments(s[1..], sep)
    else
      var n := WordLength(s, sep);
      [s[..n]] + Segments(s[n..], sep)
  }

  /** A token as `tokenize` produces it: non-empty and free of the separator. */
  predicate IsSegment(t: string, sep: char) {
    t != [] && sep !in t
  }

  predicate AllSegments(ts: seq<string>, sep: char) {
    forall i :: 0 <= i < |ts| ==> IsSegment(ts[i], sep)
  }

  /** Each token is `sep` followed by the token, as `remove_date_from_uri` writes them. */
  function Join(ts: seq<string>, sep: char): string {
    if ts == [] then [] else [sep] + ts[0] + Join(ts[1..], sep)
  }

  lemma {:induction false} JoinConcat(a: seq<string>, b: seq<string>, sep: char)
    ensures Join(a + b, sep) == Join(a, sep) + Join(b, sep)
  {
    if a == [] {
      assert a + b == b;
    } else {
      assert (a + b)[0] == a[0];
      assert (a + b)[1..] == a[1..] + b;
      JoinConcat(a[1..], b, sep);
    }
  }

  lemma JoinAppend(ts: seq<string>, t: string, sep: char)
    ensures Join(ts + [t], sep) == Join(ts, sep) + [sep] + t
  {
    JoinConcat(ts, [t], sep);
    assert Join([t], sep) == [sep] + t + Join([], sep);
  }

  lemma {:induction false} WordLengthIs(s: string, sep: char, n: nat)
    requires n <= |s|
    requires forall i :: 0 <= i < n ==> s[i] != sep
    requires n == |s| || s[n] == sep
    ensures WordLength(s, sep) == n
  {
    if n > 0 {
      WordLengthIs(s[1..], sep, n - 1);
    }
  }

  /** Every token of a path is a proper segment. */
  lemma {:induction false} SegmentsAreSegments(s: string, sep: char)
    ensures AllSegments(Segments(s, sep), sep)
    decreases |s|
  {
    if s != [] {
      if s[0] == sep {
        SegmentsAreSegments(s[1..], sep);
      } else {
        var n := WordLength(s, sep);
        SegmentsAreSegments(s[n..], sep);
        assert sep !in s[..n] by {
          forall i | 0 <= i < n ensures s[..n][i] != sep { }
        }
      }
    }
  }

  /** Tokenizing a joined path gives back its tokens: `tokenize` inverts `Join`. */
  lemma {:induction false} SegmentsOfJoin(ts: seq<string>, sep: char)
    requires AllSegments(ts, sep)
    ensures Segments(Join(ts, sep), sep) == ts
  {
    if ts != [] {
      var t := ts[0];
      var rest := Join(ts[1..], sep);
      var s := Join(ts, sep);
      var u := t + rest;
      assert s == [sep] + u;
      assert s[1..] == u;
      assert u[0] == t[0];
      assert forall i :: 0 <= i < |t| ==> u[i] != sep by {
        forall i | 0 <= i < |t| ensures u[i] != sep {
          assert u[i] == t[i];
          assert t[i] in t;
        }
      }
      assert |t| == |u| || u[|t|] == sep by {
        if rest != [] {
          assert rest[0] == sep;
          assert u[|t|] == rest[0];
        }
      }
      WordLengthIs(u, sep, |t|);
      assert u[..|t|] == t;
      assert u[|t|..] == rest;
      assert AllSegments(ts[1..], sep) by {
        forall i | 0 <= i < |ts[1..]| ensures IsSegment(ts[1..][i], sep) {
          assert ts[1..][i] == ts[i + 1];
        }
      }
      SegmentsOfJoin(ts[1..], sep);
      assert Segments(u, sep) == [t] + Segments(rest, sep);
    }
  }

  lemma SegmentsSkip(s: string, i: nat, sep: char)
    requires i < |s| && s[i] == sep
    ensures Segments(s[i..], sep) == Segments(s[i + 1..], sep)
  {
    assert s[i..][1..] == s[i + 1..];
  }

  lemma SegmentsWord(s: string, i: nat, j: nat, sep: char)
    requires i < j <= |s|
    requires forall k :: i <= k < j ==> s[k] != sep
    requires j == |s| || s[j] == sep
    ensures Segments(s[i..], sep) == [s[i..j]] + Segments(s[j..], sep)
  {
    var t := s[i..];
    WordLengthIs(t, sep, j - i);
    assert t[0] == s[i];
    assert t[..j - i] == s[i..j];
    assert t[j - i..] == s[j..];
  }

  /**
   * `ap_getword`: the word starting at `pos`, up to the next separator, and the position
   * after every separator that follows it.
   */
  method GetWord(s: string, pos: nat, sep: char) returns (word: string, next: nat)
    requires pos < |s| && s[pos] != sep
    ensures pos < next <= |s|
    ensures next < |s| ==> s[next] != sep
    ensures Segments(s[pos..], sep) == [word] + Segments(s[next..], sep)
  {
    var j := pos;
    while j < |s| && s[j] != sep
      invariant pos <= j <= |s|
      invariant forall k :: pos <= k < j ==> s[k] != sep
    {
      j := j + 1;
    }
    SegmentsWord(s, pos, j, sep);
    word := s[pos..j];
    next := SkipSeparators(s, j, sep);
  }

  /** Advances past a run of separators. */
  method SkipSeparators(s: string, pos: nat, sep: char) returns (next: nat)
    requires pos <= |s|
    ensures pos <= next <= |s|
    ensures next < |s| ==> s[next] != sep
    ensures Segments(s[next..], sep) == Segments(s[pos..], sep)
  {
    next := pos;
    while next < |s| && s[next] == sep
      invariant pos <= next <= |s|
      invariant Segments(s[next..], sep) == Segments(s[pos..], sep)
    {
      SegmentsSkip(s, next, sep);
      next := next + 1;
    }
  }

  /**
   * `tokenize`: skip the leading separators, then push words taken with `ap_getword` until
   * the end of the string.
   */
  method Tokenize(s: string, sep: char) returns (tokens: seq<string>)
    ensures tokens == Segments(s, sep)
  {
    var i := SkipSeparators(s, 0, sep);
    tokens := [];
    while i < |s|
      invariant 0 <= i <= |s|
      invariant i < |s| ==> s[i] != sep
      invariant tokens + Segments(s[i..], sep) == Segments(s, sep)
      decreases |s| - i
    {
      var word, next := GetWord(s, i, sep);
      tokens := tokens + [word];
      i := next;
    }
    assert s[|s|..] == [];
  }

  // ---- remove_date_from_uri ----

  /** `ts` without its element at index `k`; unchanged when `k` is not an index of `ts`. */
  function Without(ts: seq<string>, k: int): (r: seq<string>)
    ensures 0 <= k < |ts| ==> |r| == |ts| - 1
    ensures !(0 <= k < |ts|) ==> r == ts
  {
    if 0 <= k < |ts| then ts[..k] + ts[k + 1..] else ts
  }

  lemma WithoutPrefixStep(ts: seq<string>, k: int, i: nat)
    requires i < |ts|
    ensures Without(ts[..i + 1], k) == Without(ts[..i], k) + (if i == k then [] else [ts[i]])
  {
    if 0 <= k < i {
      assert ts[..i + 1][..k] == ts[..k] == ts[..i][..k];
      assert ts[..i + 1][k + 1..] == ts[..i][k + 1..] + [ts[i]];
    } else if i == k {
      assert ts[..i + 1][..k] == ts[..i];
      assert ts[..i + 1][k + 1..] == [];
    } else {
      assert ts[..i + 1] == ts[..i] + [ts[i]];
    }
  }

  lemma {:induction false} WithoutPrefixShorter(ts: seq<string>, k: int, i: nat, sep: char)
    requires i <= |ts|
    ensures |Join(Without(ts[..i], k), sep)| <= |Join(Without(ts, k), sep)|
    decreases |ts| - i
  {
    if i < |ts| {
      WithoutPrefixStep(ts, k, i);
      var a := Without(ts[..i], k);
      if i != k {
        JoinAppend(a, ts[i], sep);
        assert |Join(a, sep)| <= |Join(Without(ts[..i + 1], k), sep)|;
      } else {
        assert a + [] == a;
        assert Without(ts[..i + 1], k) == a;
      }
      WithoutPrefixShorter(ts, k, i + 1, sep);
    } else {
      assert ts[..i] == ts;
    }
  }

  /** `apr_cpystrn` into `buf` at `ptr`, returning the position after the copied text. */
  method CopyString(buf: array<char>, ptr: nat, token: string) returns (end: nat)
    requires ptr + |token| <= buf.Length
    modifies buf
    ensures end == ptr + |token|
    ensures buf[..end] == old(buf[..ptr]) + token
  {
    ghost var before := buf[..ptr];
    end := ptr;
    var c := 0;
    while c < |token|
      invariant 0 <= c <= |token|
      invariant end == ptr + c
      invariant buf[..end] == before + token[..c]
    {
      buf[end] := token[c];
      end := end + 1;
      c := c + 1;
    }
    assert token[..c] == token;
  }

  /** One pass of the loop of `remove_date_from_uri`: a '/' and then the token. */
  method WriteToken(buf: array<char>, ptr: nat, token: string) returns (end: nat)
    requires ptr + 1 + |token| <= buf.Length
    modifies buf
    ensures end == ptr + 1 + |token|
    ensures buf[..end] == old(buf[..ptr]) + ['/'] + token
  {
    buf[ptr] := '/';
    assert buf[..ptr + 1] == old(buf[..ptr]) + ['/'];
    end := CopyString(buf, ptr + 1, token);
  }

  /**
   * `remove_date_from_uri`: writes "/" and each token except the one at index n - 5 into a
   * zeroed MAX_STRING_LEN buffer. The source does not check the buffer size; the caller
   * must ensure the result fits, with its terminating NUL.
   */
  method RemoveDateFromUri(tokens: seq<string>) returns (out: string)
    requires |Join(Without(tokens, |tokens| - 5), '/')| < MaxStringLen
    ensures out == Join(Without(tokens, |tokens| - 5), '/')
  {
    var k := |tokens| - 5;
    ghost var total := Join(Without(tokens, k), '/');
    var buf := new char[MaxStringLen](_ => '\0');
    var ptr := 0;
    var i := 0;
    while i < |tokens|
      invariant 0 <= i <= |tokens|
      invariant buf.Length == MaxStringLen
      invariant ptr <= |total|
      invariant buf[..ptr] == Join(Without(tokens[..i], k), '/')
    {
      ghost var done := Without(tokens[..i], k);
      WithoutPrefixStep(tokens, k, i);
      WithoutPrefixShorter(tokens, k, i + 1, '/');
      if i != k {
        JoinAppend(done, tokens[i], '/');
        assert Without(tokens[..i + 1], k) == done + [tokens[i]];
        ptr := WriteToken(buf, ptr, tokens[i]);
      } else {
        assert Without(tokens[..i + 1], k) == done;
      }
      assert buf[..ptr] == Join(Without(tokens[..i + 1], k), '/');
      i := i + 1;
    }
    assert tokens[..i] == tokens;
    out := buf[..ptr];
  }

  // ---- get_base_uri ----

  /** The URI up to (not including) its last '/', or the empty string if it has none. */
  function BaseUri(uri: string): (b: string)
    ensures |b| <= |uri| && b == uri[..|b|]
    ensures '/' in uri ==> |b| < |uri| && uri[|b|] == '/'
    ensures '/' in uri ==> forall j :: |b| < j < |uri| ==> uri[j] != '/'
    ensures '/' !in uri ==> b == []
  {
    if uri == [] then []
    else if uri[|uri| - 1] == '/' then uri[..|uri| - 1]
    else
      assert forall j :: 0 <= j < |uri| - 1 ==> uri[..|uri| - 1][j] == uri[j];
      assert '/' in uri ==> '/' in uri[..|uri| - 1];
      BaseUri(uri[..|uri| - 1])
  }

  /**
   * `get_base_uri`: scans from the terminating NUL backwards for a '/', never looking at
   * index 0, and returns the URI up to it.
   */
  method GetBaseUri(uri: string) returns (b: string)
    ensures b == BaseUri(uri)
  {
    var len := |uri|;
    var i := 0;
    while i < len
      invariant 0 <= i <= len
      invariant forall p :: len - i < p < len ==> uri[p] != '/'
    {
      var c := if i == 0 then '\0' else uri[len - i];  // uri[len] is the string's NUL
      if c == '/' {
        break;
      }
      i := i + 1;
    }
    b := uri[..len - i];
  }

  // ---- find_and_replace_string ----

  /**
   * `find_and_replace_string`: replaces the first occurrence of `search` in `source`.
   * A NULL replacement ends `apr_pstrcat`'s argument list early, so only the prefix before
   * the occurrence is kept.
   */
  function FindAndReplace(search: string, source: string, replacement: Option<string>): (r: string)
    ensures (forall j: nat :: !OccursAt(source, search, j)) ==> r == source
  {
    match IndexOf(source, search)
    case None => source
    case Some(i) =>
      source[..i] + (match replacement case None => [] case Some(rep) => rep + source[i + |search|..])
  }

  /**
   * Only the first occurrence is replaced: whatever follows it, later occurrences included,
   * is kept verbatim, and the replacement text is not searched again.
   */
  lemma FindAndReplaceFirst(search: string, a: string, b: string, rep: Option<string>)
    requires forall j :: 0 <= j < |a| ==> !OccursAt(a + search + b, search, j)
    ensures FindAndReplace(search, a + search + b, rep)
         == a + (match rep case None => [] case Some(x) => x + b)
  {
    var s := a + search + b;
    assert s[|a|..|a| + |search|] == search;
    assert OccursAt(s, search, |a|);
    var i := IndexOf(s, search);
    assert i == Some(|a|);
    assert s[..|a|] == a;
    assert s[|a| + |search|..] == b;
  }
}
