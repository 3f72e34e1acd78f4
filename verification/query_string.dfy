/** Reading one query parameter of a URL the way `new URLSearchParams(
    location.search).get(name)` does, for values that need no
    percent-decoding: the query runs from the first '?' to the first '#',
    is cut at every '&', empty pieces are skipped, and a piece's name ends
    at its first '='. */
module QueryString {
  import opened Wrappers
  import Strings

  /** The part of `s` before the first `c` (all of `s` if there is none). */
  function Before(s: string, c: char): (r: string)
    ensures Strings.StartsWith(s, r) && c !in r
    ensures c !in s ==> r == s
    decreases |s|
  {
    if |s| == 0 || s[0] == c then "" else [s[0]] + Before(s[1..], c)
  }

  /** The part of `s` after the first `c`, if `c` occurs. */
  function After(s: string, c: char): (r: Option<string>)
    ensures r.None? <==> c !in s
    ensures r.Some? ==> s == Before(s, c) + [c] + r.value
    decreases |s|
  {
    if |s| == 0 then None
    else if s[0] == c then Some(s[1..])
    else match After(s[1..], c)
      case None => None
      case Some(t) => Some(t)
  }

  lemma {:induction false} SplitAtFirst(a: string, c: char, b: string)
    requires c !in a
    ensures Before(a + [c] + b, c) == a && After(a + [c] + b, c) == Some(b)
    decreases |a|
  {
    var s := a + [c] + b;
    if |a| == 0 {
      assert s == [c] + b;
    } else {
      assert s[1..] == a[1..] + [c] + b;
      SplitAtFirst(a[1..], c, b);
      assert [a[0]] + a[1..] == a;
    }
  }

  /** `location.search` without its '?'. */
  function Search(url: string): string {
    After(Before(url, '#'), '?').GetOr("")
  }

  /** The name/value pairs of the '&'-separated pieces. */
  function PairsOf(pieces: seq<string>): seq<(string, string)>
    decreases |pieces|
  {
    if |pieces| == 0 then []
    else if pieces[0] == "" then PairsOf(pieces[1..])
    else [(Before(pieces[0], '='), After(pieces[0], '=').GetOr(""))] + PairsOf(pieces[1..])
  }

  /** The first value recorded for `name`. */
  function Lookup(ps: seq<(string, string)>, name: string): Option<string>
    decreases |ps|
  {
    if |ps| == 0 then None
    else if ps[0].0 == name then Some(ps[0].1)
    else Lookup(ps[1..], name)
  }

  /** The value at the first position carrying `name`. */
  lemma {:induction false} LookupAt(ps: seq<(string, string)>, name: string, i: nat)
    requires i < |ps| && ps[i].0 == name
    requires forall j :: 0 <= j < i ==> ps[j].0 != name
    ensures Lookup(ps, name) == Some(ps[i].1)
    decreases i
  {
    if i > 0 {
      LookupAt(ps[1..], name, i - 1);
    }
  }

  /** A name no pair carries has no value. */
  lemma {:induction false} LookupAbsent(ps: seq<(string, string)>, name: string)
    requires forall j :: 0 <= j < |ps| ==> ps[j].0 != name
    ensures Lookup(ps, name).None?
    decreases |ps|
  {
    if |ps| > 0 {
      LookupAbsent(ps[1..], name);
    }
  }

  /** `Lookup` finds a value exactly when some pair carries the name, and
      then it is the value of the first such pair. */
  lemma {:induction false} LookupFirst(ps: seq<(string, string)>, name: string)
    ensures Lookup(ps, name).Some? <==> exists i :: 0 <= i < |ps| && ps[i].0 == name
    ensures Lookup(ps, name).Some? ==>
      exists i :: 0 <= i < |ps| && ps[i] == (name, Lookup(ps, name).value)
                  && forall j :: 0 <= j < i ==> ps[j].0 != name
    decreases |ps|
  {
    if |ps| > 0 && ps[0].0 != name {
      LookupFirst(ps[1..], name);
      if Lookup(ps, name).Some? {
        var i :| 0 <= i < |ps[1..]| && ps[1..][i] == (name, Lookup(ps, name).value)
                 && forall j :: 0 <= j < i ==> ps[1..][j].0 != name;
        assert ps[i + 1] == (name, Lookup(ps, name).value);
        assert forall j :: 1 <= j < i + 1 ==> ps[j].0 != name by {
          forall j | 1 <= j < i + 1 ensures ps[j].0 != name {
            assert ps[j] == ps[1..][j - 1];
          }
        }
      } else {
        forall i | 0 <= i < |ps| ensures ps[i].0 != name {
          if i > 0 {
            assert ps[i] == ps[1..][i - 1];
          }
        }
      }
    }
  }

  /** The parameters of the URL `url`, in order: what
      `new URLSearchParams(location.search)` holds. */
  function Params(url: string): seq<(string, string)> {
    PairsOf(Strings.Split(Search(url), '&'))
  }

  /** A name or value that cannot end its piece or the query early. */
  predicate Delimited(s: string) {
    '&' !in s && '#' !in s
  }

  /** A value the browser's percent- and '+'-decoding leaves unchanged, so
      that reading it without decoding is exact. */
  predicate Plain(s: string) {
    Delimited(s) && '%' !in s && '+' !in s
  }

  /** `name=value`. */
  function Field(p: (string, string)): string {
    p.0 + "=" + p.1
  }

  /** `name1=value1&name2=value2&…`. */
  function Query(ps: seq<(string, string)>): string
    requires |ps| >= 1
  {
    Strings.Join(FieldsOf(ps), '&')
  }

  function FieldsOf(ps: seq<(string, string)>): (r: seq<string>)
    ensures |r| == |ps|
    ensures forall i :: 0 <= i < |ps| ==> r[i] == Field(ps[i])
    decreases |ps|
  {
    if |ps| == 0 then [] else [Field(ps[0])] + FieldsOf(ps[1..])
  }

  /** A name without '=', name and value delimited. */
  predicate PairOk(p: (string, string)) {
    '=' !in p.0 && Delimited(p.0) && Delimited(p.1)
  }

  predicate WellFormed(ps: seq<(string, string)>) {
    forall i :: 0 <= i < |ps| ==> PairOk(ps[i])
  }

  lemma {:induction false} PairsOfFields(ps: seq<(string, string)>)
    requires WellFormed(ps)
    ensures PairsOf(FieldsOf(ps)) == ps
    decreases |ps|
  {
    if |ps| > 0 {
      var f := FieldsOf(ps);
      PairOfField(ps[0]);
      assert f[1..] == FieldsOf(ps[1..]);
      PairsOfFields(ps[1..]);
      assert PairsOf(f) == [ps[0]] + PairsOf(f[1..]);
      assert [ps[0]] + ps[1..] == ps;
    }
  }

  /** One well-formed pair survives being written and read back. */
  lemma PairOfField(p: (string, string))
    requires PairOk(p)
    ensures Field(p) != ""
    ensures (Before(Field(p), '='), After(Field(p), '=').GetOr("")) == p
  {
    assert Field(p) == p.0 + ['='] + p.1;
    SplitAtFirst(p.0, '=', p.1);
  }

  lemma {:induction false} JoinAvoids(parts: seq<string>, sep: char, c: char)
    requires |parts| >= 1 && c != sep
    requires forall i :: 0 <= i < |parts| ==> c !in parts[i]
    ensures c !in Strings.Join(parts, sep)
    decreases |parts|
  {
    if |parts| > 1 {
      JoinAvoids(parts[1..], sep, c);
    }
  }

  /** An address a query can be appended to: no '?' or '#' of its own. */
  predicate BaseOk(base: string) {
    '?' !in base && '#' !in base
  }

  lemma BaseAppend(base: string, path: string)
    requires BaseOk(base) && BaseOk(path)
    ensures BaseOk(base + path)
  {
  }

  /** Parsing a URL built as `base?query` gives back the query's pairs. */
  lemma ParseBuilt(base: string, ps: seq<(string, string)>)
    requires |ps| >= 1 && WellFormed(ps)
    requires BaseOk(base)
    ensures Params(base + "?" + Query(ps)) == ps
  {
    var fs := FieldsOf(ps);
    var q := Query(ps);
    forall i | 0 <= i < |fs| ensures '&' !in fs[i] && '#' !in fs[i] {
      assert fs[i] == ps[i].0 + "=" + ps[i].1;
    }
    JoinAvoids(fs, '&', '#');
    var url := base + "?" + q;
    assert '#' !in url;
    SplitAtFirst(base, '?', q);
    assert Search(url) == q;
    Strings.SplitJoin(fs, '&');
    PairsOfFields(ps);
  }
}
