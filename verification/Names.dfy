/** Aggregated tool names, and the sorted name lists that exposure snapshots compare.

    A Rust string is the sequence of its UTF-8 bytes. Here each `char` of a `string` stands for one such
    byte, so lengths, the `.` separator and the byte-wise ordering of names are the source's own. */
module Names {
  import opened Base

  const NAMESPACE_SEP: char := '.'

  /** `"{server_id}.{tool}"`. */
  function ExternalName(server: string, tool: string): string {
    server + [NAMESPACE_SEP] + tool
  }

  /** `str::split_once('.')`: split at the first separator. */
  function SplitOnce(name: string): Option<(string, string)> {
    var i := Position(name, c => c == NAMESPACE_SEP);
    if i == |name| then None else Some((name[..i], name[i + 1..]))
  }

  /** Joining then splitting gives the parts back, dots in the tool name included. */
  lemma SplitOfExternalName(server: string, tool: string)
    requires NAMESPACE_SEP !in server
    ensures SplitOnce(ExternalName(server, tool)) == Some((server, tool))
  {
    var name := ExternalName(server, tool);
    assert name[|server|] == NAMESPACE_SEP;
    assert forall j :: 0 <= j < |server| ==> name[j] == server[j];
    PositionUnique(name, c => c == NAMESPACE_SEP, |server|);
    assert name[..|server|] == server && name[|server| + 1..] == tool;
  }

  /** Splitting then joining gives the name back, and the server part never holds a separator. */
  lemma ExternalNameOfSplit(name: string)
    requires SplitOnce(name).Some?
    ensures var (server, tool) := SplitOnce(name).value;
            NAMESPACE_SEP !in server && ExternalName(server, tool) == name
  {
    var i := Position(name, c => c == NAMESPACE_SEP);
    assert name == name[..i] + [name[i]] + name[i + 1..];
  }

  /** Tools of different servers never share an aggregated name. */
  lemma ExternalNamesNeverCollide(server1: string, tool1: string, server2: string, tool2: string)
    requires NAMESPACE_SEP !in server1 && NAMESPACE_SEP !in server2
    requires ExternalName(server1, tool1) == ExternalName(server2, tool2)
    ensures server1 == server2 && tool1 == tool2
  {
    SplitOfExternalName(server1, tool1);
    SplitOfExternalName(server2, tool2);
  }

  // ----- Sorting -----

  /** Lexicographic order on byte strings. */
  predicate LexLe(a: string, b: string) {
    a == [] || (b != [] && (a[0] < b[0] || (a[0] == b[0] && LexLe(a[1..], b[1..]))))
  }

  /** The order is the byte-wise lexicographic one: the first place where two names differ decides, and a name comes
      before every longer one that it begins. */
  lemma {:induction false} LexIsBytewise(a: string, b: string)
    ensures LexLe(a, b) <==>
            a <= b || exists i :: 0 <= i < |a| && i < |b| && a[..i] == b[..i] && a[i] < b[i]
  {
    if a != [] && b != [] && a[0] == b[0] {
      LexIsBytewise(a[1..], b[1..]);
      PrefixTail(a, b);
      if i :| 0 <= i < |a[1..]| && i < |b[1..]| && a[1..][..i] == b[1..][..i] && a[1..][i] < b[1..][i] {
        assert a[..i + 1] == [a[0]] + a[1..][..i] && b[..i + 1] == [b[0]] + b[1..][..i];
      }
      if i :| 0 <= i < |a| && i < |b| && a[..i] == b[..i] && a[i] < b[i] {
        assert a[1..][..i - 1] == a[..i][1..] && b[1..][..i - 1] == b[..i][1..];
        assert a[1..][i - 1] < b[1..][i - 1];
      }
    } else if a != [] && b != [] {
      DifferAtFirst(a, b);
    }
  }

  lemma PrefixTail(a: string, b: string)
    requires a != [] && b != [] && a[0] == b[0]
    ensures a <= b <==> a[1..] <= b[1..]
  {
    assert a == [a[0]] + a[1..] && b == [b[0]] + b[1..];
  }

  lemma DifferAtFirst(a: string, b: string)
    requires a != [] && b != [] && a[0] != b[0]
    ensures a[0] < b[0] <==> a <= b || exists i :: 0 <= i < |a| && i < |b| && a[..i] == b[..i] && a[i] < b[i]
  {
    assert a[..0] == b[..0];
    if i :| 0 <= i < |a| && i < |b| && a[..i] == b[..i] && a[i] < b[i] {
      if i > 0 {
        assert a[..i][0] == b[..i][0];
      }
    }
  }

  lemma LexTotal(a: string, b: string)
    ensures LexLe(a, b) || LexLe(b, a)
  {
  }

  lemma {:induction false} LexAntisymmetric(a: string, b: string)
    requires LexLe(a, b) && LexLe(b, a)
    ensures a == b
  {
    if a != [] {
      LexAntisymmetric(a[1..], b[1..]);
      assert a == [a[0]] + a[1..] && b == [b[0]] + b[1..];
    }
  }

  lemma LexTransitive(a: string, b: string, c: string)
    requires LexLe(a, b) && LexLe(b, c)
    ensures LexLe(a, c)
  {
  }

  predicate Sorted(s: seq<string>) {
    forall i, j :: 0 <= i < j < |s| ==> LexLe(s[i], s[j])
  }

  function Insert(x: string, s: seq<string>): seq<string> {
    if s == [] then [x] else if LexLe(x, s[0]) then [x] + s else [s[0]] + Insert(x, s[1..])
  }

  function Sort(s: seq<string>): seq<string> {
    if s == [] then [] else Insert(s[0], Sort(s[1..]))
  }

  lemma HeadLeInserted(x: string, s: seq<string>, r: seq<string>)
    requires s != [] && Sorted(s) && LexLe(s[0], x) && multiset(r) == multiset(s[1..]) + multiset{x}
    ensures forall j :: 0 <= j < |r| ==> LexLe(s[0], r[j])
  {
    hide LexLe;
    forall j | 0 <= j < |r| ensures LexLe(s[0], r[j]) {
      assert r[j] in multiset(r);
      assert r[j] == x || r[j] in s[1..];
    }
  }

  lemma {:induction false} InsertSorted(x: string, s: seq<string>)
    requires Sorted(s)
    ensures Sorted(Insert(x, s)) && multiset(Insert(x, s)) == multiset(s) + multiset{x}
  {
    if s != [] {
      assert s == [s[0]] + s[1..];
      if LexLe(x, s[0]) {
        forall j | 0 <= j < |s| ensures LexLe(x, s[j]) {
          if j > 0 { LexTransitive(x, s[0], s[j]); }
        }
      } else {
        InsertSorted(x, s[1..]);
        LexTotal(x, s[0]);
        HeadLeInserted(x, s, Insert(x, s[1..]));
      }
    }
  }

  lemma {:induction false} SortCorrect(s: seq<string>)
    ensures Sorted(Sort(s)) && multiset(Sort(s)) == multiset(s)
  {
    if s != [] {
      SortCorrect(s[1..]);
      InsertSorted(s[0], Sort(s[1..]));
      assert s == [s[0]] + s[1..];
    }
  }

  lemma SmallestFirst(a: seq<string>, b: seq<string>)
    requires Sorted(a) && multiset(a) == multiset(b) && a != [] && b != []
    ensures LexLe(a[0], b[0])
  {
    assert b[0] in multiset(a);
    var j :| 0 <= j < |a| && a[j] == b[0];
    if j == 0 { LexTotal(a[0], a[0]); }
  }

  lemma TailCounts(a: seq<string>)
    requires a != []
    ensures multiset(a[1..]) == multiset(a) - multiset{a[0]}
  {
    assert a == [a[0]] + a[1..];
  }

  lemma {:induction false} SortedUnique(a: seq<string>, b: seq<string>)
    requires Sorted(a) && Sorted(b) && multiset(a) == multiset(b)
    ensures a == b
  {
    hide LexLe;
    assert |multiset(a)| == |a| && |multiset(b)| == |b|;
    if a != [] {
      SmallestFirst(a, b);
      SmallestFirst(b, a);
      LexAntisymmetric(a[0], b[0]);
      TailCounts(a);
      TailCounts(b);
      SortedUnique(a[1..], b[1..]);
      assert a == [a[0]] + a[1..] && b == [b[0]] + b[1..];
    }
  }

  /** Sorted lists are equal exactly when the unsorted ones hold the same names the same number of times. */
  lemma SortCanonical(s: seq<string>, t: seq<string>)
    ensures Sort(s) == Sort(t) <==> multiset(s) == multiset(t)
  {
    SortCorrect(s);
    SortCorrect(t);
    if multiset(s) == multiset(t) {
      SortedUnique(Sort(s), Sort(t));
    }
  }
}
