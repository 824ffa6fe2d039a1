/**
 * Insertion-ordered key sets (the source's LinkedHashSet) and delimited
 * rows (the CSV strings built by concatenation), with the facts the
 * attribute classes rely on.
 */
module OrderedKeys {

  /** No element occurs twice. */
  predicate Distinct<T(==)>(s: seq<T>)
  {
    forall i, j :: 0 <= i < j < |s| ==> s[i] != s[j]
  }

  /** LinkedHashSet.add: a key not yet present goes to the end; a present key changes nothing. */
  function Add(s: seq<string>, k: string): seq<string>
  {
    if k in s then s else s + [k]
  }

  /** Adding a key keeps the earlier keys in place, makes the key present, and keeps the keys distinct. */
  lemma AddKeeps(s: seq<string>, k: string)
    ensures |s| <= |Add(s, k)| <= |s| + 1 && Add(s, k)[..|s|] == s
    ensures forall x :: x in Add(s, k) <==> x in s || x == k
    ensures Distinct(s) ==> Distinct(Add(s, k))
  {
  }

  /** LinkedHashSet.addAll: the keys of `ks` are added one after another, in order. */
  function AddAll(s: seq<string>, ks: seq<string>): seq<string>
    decreases |ks|
  {
    if ks == [] then s else AddAll(Add(s, ks[0]), ks[1..])
  }

  /** addAll keeps the earlier keys in place, adds exactly the given keys, and keeps the keys distinct. */
  lemma {:induction false} AddAllKeeps(s: seq<string>, ks: seq<string>)
    ensures |s| <= |AddAll(s, ks)| && AddAll(s, ks)[..|s|] == s
    ensures forall x :: x in AddAll(s, ks) <==> x in s || x in ks
    ensures Distinct(s) ==> Distinct(AddAll(s, ks))
    decreases |ks|
  {
    if ks != [] {
      AddKeeps(s, ks[0]);
      AddAllKeeps(Add(s, ks[0]), ks[1..]);
      var r := AddAll(s, ks);
      assert r[..|s|] == Add(s, ks[0])[..|Add(s, ks[0])|][..|s|];
      assert forall x :: x in ks <==> x == ks[0] || x in ks[1..];
    }
  }

  /** Adding distinct keys none of which is present yet appends them all, in their order. */
  lemma {:induction false} AddAllFresh(s: seq<string>, ks: seq<string>)
    requires Distinct(ks)
    requires forall k :: k in ks ==> k !in s
    ensures AddAll(s, ks) == s + ks
    decreases |ks|
  {
    if ks != [] {
      var k0 := ks[0];
      FreshHead(s, ks);
      FreshTail(s, ks);
      AddAllFresh(s + [k0], ks[1..]);
    }
  }

  /** Adding the head of a fresh key list appends it. */
  lemma FreshHead(s: seq<string>, ks: seq<string>)
    requires ks != []
    requires forall k :: k in ks ==> k !in s
    ensures AddAll(s, ks) == AddAll(s + [ks[0]], ks[1..])
    ensures s + ks == s + [ks[0]] + ks[1..]
  {
    assert ks[0] in ks;
    HeadAppend(s, ks);
  }

  /** Moving the head of a list onto the end of what precedes it keeps the concatenation. */
  lemma HeadAppend(s: seq<string>, ks: seq<string>)
    requires ks != []
    ensures s + ks == s + [ks[0]] + ks[1..]
  {
    assert ks == [ks[0]] + ks[1..];
  }

  /** The tail of a distinct, fresh key list is distinct and fresh after its head is added. */
  lemma FreshTail(s: seq<string>, ks: seq<string>)
    requires ks != [] && Distinct(ks)
    requires forall k :: k in ks ==> k !in s
    ensures Distinct(ks[1..])
    ensures forall k :: k in ks[1..] ==> k !in s + [ks[0]]
  {
    var rest := ks[1..];
    forall i, j | 0 <= i < j < |rest| ensures rest[i] != rest[j] {
      assert rest[i] == ks[i + 1] && rest[j] == ks[j + 1];
    }
    forall k | k in rest ensures k !in s + [ks[0]] {
      var i :| 0 <= i < |rest| && rest[i] == k;
      assert ks[i + 1] == k;
      assert k in ks;
    }
  }

  /** Adding the next key of a distinct list to the keys before it extends the prefix by one. */
  lemma AddNext(prefix: seq<string>, ks: seq<string>, n: nat)
    requires Distinct(ks) && n < |ks| && prefix == ks[..n]
    ensures Add(prefix, ks[n]) == ks[..n + 1]
  {
    forall i | 0 <= i < n ensures prefix[i] != ks[n] {
      assert prefix[i] == ks[i];
    }
    assert ks[..n + 1] == ks[..n] + [ks[n]];
  }

  /** The tail of a distinct list is distinct and holds no copy of the head. */
  lemma DistinctTail(ks: seq<string>)
    requires ks != [] && Distinct(ks)
    ensures Distinct(ks[1..]) && ks[0] !in ks[1..]
    ensures forall k :: k in ks <==> k == ks[0] || k in ks[1..]
  {
    var rest := ks[1..];
    forall i, j | 0 <= i < j < |rest| ensures rest[i] != rest[j] {
      assert rest[i] == ks[i + 1] && rest[j] == ks[j + 1];
    }
    forall i | 0 <= i < |rest| ensures rest[i] != ks[0] {
      assert rest[i] == ks[i + 1];
    }
  }

  /** Two distinct lists with no common element concatenate to a distinct list. */
  lemma DistinctConcat(a: seq<string>, b: seq<string>)
    requires Distinct(a) && Distinct(b)
    requires forall k :: k in a ==> k !in b
    ensures Distinct(a + b)
  {
    var c := a + b;
    forall i, j | 0 <= i < j < |c| ensures c[i] != c[j] {
      if j < |a| {
        assert c[i] == a[i] && c[j] == a[j];
      } else if i >= |a| {
        assert c[i] == b[i - |a|] && c[j] == b[j - |a|];
      } else {
        assert c[i] == a[i] && c[j] == b[j - |a|];
        assert a[i] in a;
      }
    }
  }

  /** Both halves of a distinct concatenation are distinct and share no element. */
  lemma DistinctSplit(a: seq<string>, b: seq<string>)
    requires Distinct(a + b)
    ensures Distinct(a) && Distinct(b)
    ensures forall k :: k in a ==> k !in b
  {
    var c := a + b;
    forall i, j | 0 <= i < j < |a| ensures a[i] != a[j] {
      assert a[i] == c[i] && a[j] == c[j];
    }
    forall i, j | 0 <= i < j < |b| ensures b[i] != b[j] {
      assert b[i] == c[|a| + i] && b[j] == c[|a| + j];
    }
    forall i, j | 0 <= i < |a| && 0 <= j < |b| ensures a[i] != b[j] {
      assert a[i] == c[i] && b[j] == c[|a| + j];
    }
  }

  /** Adding three pairwise disjoint groups of distinct keys to an empty ordered set, in order, appends them. */
  lemma AddAllGroups(a: seq<string>, b: seq<string>, c: seq<string>)
    requires Distinct(a) && Distinct(b + c)
    requires forall k :: k in b + c ==> k !in a
    ensures AddAll(AddAll(AddAll([], a), b), c) == a + (b + c)
  {
    DistinctSplit(b, c);
    AddAllPair(a, b);
    AppendFresh(a, b, c);
    AddAllFresh(a + b, c);
    ConcatAssoc(a, b, c);
  }

  /** Concatenation is associative. */
  lemma ConcatAssoc(a: seq<string>, b: seq<string>, c: seq<string>)
    ensures a + b + c == a + (b + c)
  {
  }

  /** Adding two disjoint groups of distinct keys to an empty ordered set, in order, appends them. */
  lemma AddAllPair(a: seq<string>, b: seq<string>)
    requires Distinct(a) && Distinct(b)
    requires forall k :: k in b ==> k !in a
    ensures AddAll(AddAll([], a), b) == a + b
  {
    AddAllFresh([], a);
    assert [] + a == a;
    AddAllFresh(a, b);
  }

  /** Keys of `c` outside `a` and outside `b` are outside `a + b`. */
  lemma AppendFresh(a: seq<string>, b: seq<string>, c: seq<string>)
    requires forall k :: k in b + c ==> k !in a
    requires forall k :: k in b ==> k !in c
    ensures forall k :: k in c ==> k !in a + b
  {
    forall k | k in c ensures k !in a + b {
      assert k in b + c;
    }
  }


  /** Adding keys that are all present already changes nothing (the lazy population is idempotent). */
  lemma {:induction false} AddAllPresent(s: seq<string>, ks: seq<string>)
    requires forall k :: k in ks ==> k in s
    ensures AddAll(s, ks) == s
    decreases |ks|
  {
    if ks != [] {
      assert ks[0] in ks;
      assert Add(s, ks[0]) == s;
      forall k | k in ks[1..] ensures k in s {
        var i :| 0 <= i < |ks[1..]| && ks[1..][i] == k;
        assert ks[i + 1] == k;
      }
      AddAllPresent(s, ks[1..]);
    }
  }

  /** The elements of `s` after its first, in order: the source's iterator loop that skips typeName. */
  method CopyTail(s: seq<string>, a: array<string>)
    requires |s| == a.Length + 1
    modifies a
    ensures a[..] == s[1..]
  {
    var j := 0;
    var it := 1;
    while it < |s|
      invariant 1 <= it <= |s| && j == it - 1
      invariant a[..j] == s[1..it]
    {
      a[j] := s[it];
      j, it := j + 1, it + 1;
    }
  }

  /** The first field followed by every other field, each after the separator. */
  function Join(fields: seq<string>, sep: char): string
    requires |fields| > 0
    decreases |fields|
  {
    if |fields| == 1 then fields[0] else fields[0] + [sep] + Join(fields[1..], sep)
  }

  /** The separator followed by the field, for every field in order. */
  function Suffix(fields: seq<string>, sep: char): string
    decreases |fields|
  {
    if fields == [] then "" else [sep] + fields[0] + Suffix(fields[1..], sep)
  }

  /** Appending one field to a joined row is joining one more field. */
  lemma {:induction false} JoinSnoc(fields: seq<string>, f: string, sep: char)
    requires |fields| > 0
    ensures Join(fields + [f], sep) == Join(fields, sep) + [sep] + f
    decreases |fields|
  {
    if |fields| == 1 {
      assert (fields + [f])[1..] == [f];
    } else {
      assert (fields + [f])[1..] == fields[1..] + [f];
      JoinSnoc(fields[1..], f, sep);
    }
  }

  /** Suffix of a list with one more field. */
  lemma {:induction false} SuffixSnoc(fields: seq<string>, f: string, sep: char)
    ensures Suffix(fields + [f], sep) == Suffix(fields, sep) + [sep] + f
    decreases |fields|
  {
    if fields == [] {
      assert [f][1..] == [];
    } else {
      assert (fields + [f])[1..] == fields[1..] + [f];
      SuffixSnoc(fields[1..], f, sep);
    }
  }

  /** A joined row followed by the suffix of more fields is the join of all the fields. */
  lemma {:induction false} JoinSuffix(head: seq<string>, tail: seq<string>, sep: char)
    requires |head| > 0
    ensures Join(head, sep) + Suffix(tail, sep) == Join(head + tail, sep)
    decreases |tail|
  {
    if tail != [] {
      var t0, rest := tail[0], tail[1..];
      JoinSnoc(head, t0, sep);
      assert Suffix(tail, sep) == [sep] + t0 + Suffix(rest, sep);
      assert Join(head, sep) + Suffix(tail, sep) == (Join(head, sep) + [sep] + t0) + Suffix(rest, sep);
      JoinSuffix(head + [t0], rest, sep);
      assert head + tail == (head + [t0]) + rest;
    } else {
      assert head + tail == head;
    }
  }

  /** Index of the first occurrence of `c` in `s`. */
  function FirstIndex(s: string, c: char): (i: nat)
    requires c in s
    ensures i < |s| && s[i] == c && c !in s[..i]
  {
    if s[0] == c then 0 else 1 + FirstIndex(s[1..], c)
  }

  /** The first separator in a row is the one right after its first field. */
  lemma {:induction false} FirstIndexAfterField(f: string, rest: string, c: char)
    requires c !in f
    ensures c in f + [c] + rest && FirstIndex(f + [c] + rest, c) == |f|
    decreases |f|
  {
    var s := f + [c] + rest;
    assert s[|f|] == c;
    if f != [] {
      assert s[0] == f[0] && f[0] != c;
      assert s[1..] == f[1..] + [c] + rest;
      FirstIndexAfterField(f[1..], rest, c);
    }
  }

  /** The fields of a delimited row. */
  function Split(s: string, sep: char): (r: seq<string>)
    ensures |r| > 0
    decreases |s|
  {
    if sep !in s then [s]
    else
      var i := FirstIndex(s, sep);
      [s[..i]] + Split(s[i + 1..], sep)
  }

  /** No field contains the separator. */
  predicate Unseparated(fields: seq<string>, sep: char)
  {
    forall i :: 0 <= i < |fields| ==> sep !in fields[i]
  }

  /** A row joined from fields that do not contain the separator splits back into those fields. */
  lemma {:induction false} SplitJoin(fields: seq<string>, sep: char)
    requires |fields| > 0 && Unseparated(fields, sep)
    ensures Split(Join(fields, sep), sep) == fields
    decreases |fields|
  {
    if |fields| == 1 {
      assert sep !in fields[0];
    } else {
      var s := Join(fields, sep);
      var f := fields[0];
      assert sep !in f;
      assert s == f + [sep] + Join(fields[1..], sep);
      FirstIndexAfterField(f, Join(fields[1..], sep), sep);
      var i := FirstIndex(s, sep);
      assert i == |f| && s[..i] == f;
      assert s[i + 1..] == Join(fields[1..], sep);
      SplitJoin(fields[1..], sep);
      assert [f] + fields[1..] == fields;
    }
  }
}
