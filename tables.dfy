/**
 * APR tables as the module uses them (`apr_table_get`, `apr_table_set`), and
 * `argstr_to_table`, which turns a query string into such a table.
 */
module Tables {
  import opened Wrappers
  import opened Strings
  import opened Paths

  /** A table entry; a `None` value is a NULL value stored under the key. */
  datatype Entry = Entry(key: string, value: Option<string>)

  /** An APR table: keys compare without regard to ASCII case. */
  type Table = seq<Entry>

  predicate HasKey(t: Table, key: string) {
    exists i :: 0 <= i < |t| && EqIgnoreCase(t[i].key, key)
  }

  /**
   * `apr_table_get`: the value of the first entry whose key matches, NULL (`None`) when
   * there is none or when that entry holds NULL.
   */
  function Get(t: Table, key: string): Option<string> {
    if t == [] then None
    else if EqIgnoreCase(t[0].key, key) then t[0].value
    else Get(t[1..], key)
  }

  /** A value read from the table is the value of an entry with a matching key; without one the read is NULL. */
  lemma {:induction false} GetFound(t: Table, key: string)
    ensures !HasKey(t, key) ==> Get(t, key).None?
    ensures Get(t, key).Some? ==> exists i :: 0 <= i < |t| && EqIgnoreCase(t[i].key, key) && t[i].value == Get(t, key)
  {
    if t != [] && !EqIgnoreCase(t[0].key, key) {
      GetFound(t[1..], key);
      var r := Get(t[1..], key);
      assert r.Some? ==> exists i :: 1 <= i < |t| && EqIgnoreCase(t[i].key, key) && t[i].value == r by {
        if r.Some? {
          var j :| 0 <= j < |t[1..]| && EqIgnoreCase(t[1..][j].key, key) && t[1..][j].value == r;
          assert t[j + 1] == t[1..][j];
        }
      }
      assert HasKey(t, key) ==> HasKey(t[1..], key) by {
        if HasKey(t, key) {
          var j :| 0 <= j < |t| && EqIgnoreCase(t[j].key, key);
          assert j != 0;
          assert t[1..][j - 1] == t[j];
        }
      }
    }
  }

  /** The entries of `t` whose key does not match `key`, in order. */
  function Remove(t: Table, key: string): Table {
    if t == [] then []
    else if EqIgnoreCase(t[0].key, key) then Remove(t[1..], key)
    else [t[0]] + Remove(t[1..], key)
  }

  /** After `Remove`, no entry matches the key, and every other key reads as before. */
  lemma {:induction false} RemoveGet(t: Table, key: string, probe: string)
    ensures !HasKey(Remove(t, key), key)
    ensures !EqIgnoreCase(probe, key) ==> Get(Remove(t, key), probe) == Get(t, probe)
  {
    if t != [] {
      RemoveGet(t[1..], key, probe);
      var rest := Remove(t[1..], key);
      if !EqIgnoreCase(t[0].key, key) {
        var r := [t[0]] + rest;
        assert r[1..] == rest;
        assert !HasKey(r, key) by {
          forall i | 0 <= i < |r| ensures !EqIgnoreCase(r[i].key, key) {
            if i > 0 {
              assert r[i] == rest[i - 1];
            }
          }
        }
      } else if !EqIgnoreCase(probe, key) {
        assert !EqIgnoreCase(t[0].key, probe) by {
          if EqIgnoreCase(t[0].key, probe) {
            EqIgnoreCaseTrans(probe, t[0].key, key);
          }
        }
      }
    }
  }

  /** `apr_table_set`: replaces every entry of the key with a single new one. */
  function Set(t: Table, key: string, value: Option<string>): Table {
    Remove(t, key) + [Entry(key, value)]
  }

  lemma GetAppendMissing(t: Table, e: Entry, key: string)
    requires !HasKey(t, key)
    ensures Get(t + [e], key) == if EqIgnoreCase(e.key, key) then e.value else None
    decreases |t|
  {
    if t == [] {
      assert t + [e] == [e];
    } else {
      assert (t + [e])[0] == t[0];
      assert (t + [e])[1..] == t[1..] + [e];
      assert !HasKey(t[1..], key) by {
        forall i | 0 <= i < |t[1..]| ensures !EqIgnoreCase(t[1..][i].key, key) {
          assert t[1..][i] == t[i + 1];
        }
      }
      GetAppendMissing(t[1..], e, key);
    }
  }

  /** After `apr_table_set(t, key, v)`, looking up any spelling of `key` gives `v`. */
  lemma GetSetSame(t: Table, key: string, value: Option<string>, probe: string)
    requires EqIgnoreCase(key, probe)
    ensures Get(Set(t, key, value), probe) == value
  {
    RemoveGet(t, key, probe);
    assert !HasKey(Remove(t, key), probe) by {
      var r := Remove(t, key);
      forall i | 0 <= i < |r| ensures !EqIgnoreCase(r[i].key, probe) {
        assert !EqIgnoreCase(r[i].key, key);
        if EqIgnoreCase(r[i].key, probe) {
          EqIgnoreCaseTrans(r[i].key, probe, key);
        }
      }
    }
    GetAppendMissing(Remove(t, key), Entry(key, value), probe);
  }

  /** `apr_table_set` leaves every other key as it was. */
  lemma GetSetOther(t: Table, key: string, value: Option<string>, probe: string)
    requires !EqIgnoreCase(key, probe)
    ensures Get(Set(t, key, value), probe) == Get(t, probe)
  {
    RemoveGet(t, key, probe);
    assert !HasKey([Entry(key, value)], probe);
    GetConcatFirst(Remove(t, key), [Entry(key, value)], probe);
  }

  lemma GetConcatFirst(a: Table, b: Table, key: string)
    requires !HasKey(b, key)
    ensures Get(a + b, key) == Get(a, key)
    decreases |a|
  {
    if a == [] {
      assert a + b == b;
      GetFound(b, key);
    } else {
      assert (a + b)[0] == a[0];
      assert (a + b)[1..] == a[1..] + b;
      GetConcatFirst(a[1..], b, key);
    }
  }

  // ---- argstr_to_table ----

  /**
   * One `key=value` token: split at the first '=', both halves passed through
   * `ap_unescape_url` (the parameter `unescape`); a token without '=' stores NULL.
   */
  function EntryOf(token: string, unescape: string -> string): Entry {
    var (k, rest) := SplitAtChar(token, '=');
    Entry(unescape(k), if rest == [] then None else Some(unescape(rest[1..])))
  }

  /** `apr_table_set` for each token, in order. */
  function InsertAll(t: Table, tokens: seq<string>, unescape: string -> string): Table
    decreases |tokens|
  {
    if tokens == [] then t
    else
      var e := EntryOf(tokens[0], unescape);
      InsertAll(Set(t, e.key, e.value), tokens[1..], unescape)
  }

  /**
   * The table `argstr_to_table` builds from `r->args`: nothing for a NULL query string,
   * otherwise one `apr_table_set` per '&'-separated non-empty token (`apr_strtok`).
   */
  function ParseArgs(args: Option<string>, unescape: string -> string): Table {
    match args
    case None => []
    case Some(s) => InsertAll([], Segments(s, '&'), unescape)
  }

  /** Reference reading of a token list: the value of the LAST token whose key matches. */
  function LastValue(tokens: seq<string>, key: string, unescape: string -> string): Option<Option<string>>
    decreases |tokens|
  {
    if tokens == [] then None
    else
      match LastValue(tokens[1..], key, unescape)
      case Some(v) => Some(v)
      case None =>
        var e := EntryOf(tokens[0], unescape);
        if EqIgnoreCase(e.key, key) then Some(e.value) else None
  }

  lemma {:induction false} InsertAllGet(t: Table, tokens: seq<string>, key: string, unescape: string -> string)
    ensures Get(InsertAll(t, tokens, unescape), key)
         == match LastValue(tokens, key, unescape) case None => Get(t, key) case Some(v) => v
    decreases |tokens|
  {
    if tokens != [] {
      var e := EntryOf(tokens[0], unescape);
      InsertAllGet(Set(t, e.key, e.value), tokens[1..], key, unescape);
      if EqIgnoreCase(e.key, key) {
        GetSetSame(t, e.key, e.value, key);
      } else {
        GetSetOther(t, e.key, e.value, key);
      }
    }
  }

  /**
   * A repeated parameter keeps the value of its last occurrence, and a parameter that
   * never occurs reads as NULL.
   */
  lemma ParseArgsGet(s: string, key: string, unescape: string -> string)
    ensures Get(ParseArgs(Some(s), unescape), key)
         == match LastValue(Segments(s, '&'), key, unescape) case None => None case Some(v) => v
  {
    InsertAllGet([], Segments(s, '&'), key, unescape);
  }

  /**
   * `argstr_to_table` (with `ap_args_to_table`): walks the query string with `apr_strtok`
   * and sets one entry per token.
   */
  method ArgsToTable(args: Option<string>, unescape: string -> string) returns (t: Table)
    ensures t == ParseArgs(args, unescape)
  {
    t := [];
    if args.None? {
      return;
    }
    var s := args.value;
    var i := SkipSeparators(s, 0, '&');
    while i < |s|
      invariant 0 <= i <= |s|
      invariant i < |s| ==> s[i] != '&'
      invariant InsertAll(t, Segments(s[i..], '&'), unescape) == ParseArgs(args, unescape)
      decreases |s| - i
    {
      var token, next := GetWord(s, i, '&');
      var key, rest := SplitAtChar(token, '=').0, SplitAtChar(token, '=').1;
      var value := if rest == [] then None else Some(unescape(rest[1..]));
      t := Set(t, unescape(key), value);
      i := next;
    }
    assert s[|s|..] == [];
  }
}
