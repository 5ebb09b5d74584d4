/** The order in which a directory is listed: by file name. */
module Sorting {

  predicate Less(a: string, b: string) {
    if b == "" then false
    else if a == "" then true
    else a[0] < b[0] || (a[0] == b[0] && Less(a[1..], b[1..]))
  }

  predicate IsLeast(m: string, s: set<string>) {
    m in s && forall x :: x in s && x != m ==> Less(m, x)
  }

  lemma {:induction false} LessIsTotal(a: string, b: string)
    ensures a != b ==> Less(a, b) || Less(b, a)
    ensures !(Less(a, b) && Less(b, a))
    ensures !Less(a, a)
  {
    if a != "" && b != "" {
      LessIsTotal(a[1..], b[1..]);
      assert a == [a[0]] + a[1..] && b == [b[0]] + b[1..];
    }
    if a != "" {
      LessIsTotal(a[1..], a[1..]);
    }
  }

  lemma {:induction false} LessIsTransitive(a: string, b: string, c: string)
    requires Less(a, b) && Less(b, c)
    ensures Less(a, c)
  {
    if a != "" && a[0] == b[0] && b[0] == c[0] {
      LessIsTransitive(a[1..], b[1..], c[1..]);
    }
  }

  lemma {:induction false} LeastExists(s: set<string>) returns (m: string)
    requires s != {}
    ensures IsLeast(m, s)
    decreases s
  {
    var x :| x in s;
    if s == {x} {
      m := x;
    } else {
      var rest := s - {x};
      var y := LeastExists(rest);
      LessIsTotal(x, y);
      m := if Less(x, y) then x else y;
      forall z | z in s && z != m ensures Less(m, z) {
        if m == x && z != y {
          LessIsTransitive(x, y, z);
        }
      }
    }
  }

  lemma LeastIsUnique(s: set<string>)
    ensures forall a, b :: IsLeast(a, s) && IsLeast(b, s) ==> a == b
  {
    forall a, b | IsLeast(a, s) && IsLeast(b, s) ensures a == b {
      LessIsTotal(a, b);
    }
  }

  function Least(s: set<string>): (m: string)
    requires s != {}
    ensures IsLeast(m, s)
  {
    LeastIsUnique(s);
    assert exists m :: IsLeast(m, s) by { var m := LeastExists(s); }
    var m :| IsLeast(m, s);
    m
  }

  /** The names in listing order. */
  function Sorted(s: set<string>): (names: seq<string>)
    ensures forall n :: n in names <==> n in s
  {
    if s == {} then []
    else
      var m := Least(s);
      [m] + Sorted(s - {m})
  }

  function Filter(names: seq<string>, keep: string -> bool): seq<string> {
    if names == [] then []
    else (if keep(names[0]) then [names[0]] else []) + Filter(names[1..], keep)
  }

  function Kept(s: set<string>, keep: string -> bool): set<string> {
    set n | n in s && keep(n)
  }

  lemma SortedFrom(m: string, s: set<string>)
    requires IsLeast(m, s)
    ensures Sorted(s) == [m] + Sorted(s - {m})
  {
    LeastIsUnique(s);
  }

  /** Listing some of the names is skipping the others in the full listing. */
  lemma {:induction false} SortedFilter(s: set<string>, keep: string -> bool)
    ensures Filter(Sorted(s), keep) == Sorted(Kept(s, keep))
  {
    if s == {} {
      assert Kept(s, keep) == {};
    } else {
      var m := Least(s);
      SortedFilter(s - {m}, keep);
      assert Filter(Sorted(s), keep) == (if keep(m) then [m] else []) + Filter(Sorted(s - {m}), keep);
      if keep(m) {
        SortedFrom(m, Kept(s, keep));
        assert Kept(s - {m}, keep) == Kept(s, keep) - {m};
      } else {
        assert Kept(s - {m}, keep) == Kept(s, keep);
      }
    }
  }

  /** The listing is strictly ascending. */
  lemma {:induction false} SortedIsAscending(s: set<string>, i: nat, j: nat)
    requires i < j < |Sorted(s)|
    ensures Less(Sorted(s)[i], Sorted(s)[j])
  {
    var m := Least(s);
    var rest := Sorted(s - {m});
    if i == 0 {
      assert rest[j - 1] in s - {m};
    } else {
      SortedIsAscending(s - {m}, i - 1, j - 1);
    }
  }

  predicate Ascending(names: seq<string>) {
    forall i, j :: 0 <= i < j < |names| ==> Less(names[i], names[j])
  }

  /** The order is by the first character that differs, a prefix coming first. */
  lemma {:induction false} LessIsLexicographic(a: string, b: string)
    ensures Less(a, b) <==>
              exists k :: 0 <= k <= |a| && k < |b| && a[..k] == b[..k] && (k == |a| || a[k] < b[k])
  {
    if a == "" || b == "" {
      assert b != "" ==> a[..0] == b[..0];
    } else if a[0] == b[0] {
      LessIsLexicographic(a[1..], b[1..]);
      if Less(a, b) {
        var k :| 0 <= k <= |a[1..]| && k < |b[1..]| && a[1..][..k] == b[1..][..k] && (k == |a[1..]| || a[1..][k] < b[1..][k]);
        assert a[..k + 1] == [a[0]] + a[1..][..k] && b[..k + 1] == [b[0]] + b[1..][..k];
      }
      if exists k :: 0 <= k <= |a| && k < |b| && a[..k] == b[..k] && (k == |a| || a[k] < b[k]) {
        var k :| 0 <= k <= |a| && k < |b| && a[..k] == b[..k] && (k == |a| || a[k] < b[k]);
        assert k > 0 && a[1..][..k - 1] == a[..k][1..] && b[1..][..k - 1] == b[..k][1..];
      }
    } else {
      assert a[..0] == b[..0];
      forall k | 0 < k <= |a| && k < |b| ensures a[..k] != b[..k] {
        assert a[..k][0] == a[0] && b[..k][0] == b[0];
      }
    }
  }
}
