/**
 * The positional row format shared by the POP attribute classes: parsing
 * the values of a run of keys from consecutive fields of a String[] row,
 * and writing values and keys as delimited rows.
 */
module AttributeRows {
  import opened Wrappers
  import opened OrderedKeys
  import opened AttributeValues

  /**
   * How parsing a run of keys ended: every field parsed; a field was
   * missing (the IndexOutOfBoundsException, at the first index past the
   * row); or a field did not parse (the NumberFormatException, at that
   * field's index). Both exceptions are rethrown by the source.
   */
  datatype RowOutcome = Parsed | MissingValue(index: nat) | BadValue(index: nat)

  function Max(a: nat, b: nat): nat { if a < b then b else a }

  /**
   * setValueFromString(key, field) on a values map: typeName is ignored;
   * any other key's descriptor parses the field and the value is stored.
   * None is the NumberFormatException of a field that does not parse.
   */
  function StoreField(values: map<string, Value>, key: string, field: string, kinds: map<string, AttrKind>,
                      codec: Codec): (r: Option<map<string, Value>>)
    requires key == TypeNameKey || key in kinds
    ensures key == TypeNameKey ==> r == Some(values)
    ensures key != TypeNameKey ==> (r.Some? <==> codec.parse(kinds[key], field).Some?)
    ensures r.Some? && key != TypeNameKey ==> r.value == values[key := codec.parse(kinds[key], field).value]
  {
    if key == TypeNameKey then Some(values)
    else
      match codec.parse(kinds[key], field)
      case None => None
      case Some(v) => Some(values[key := v])
  }

  /**
   * setValueFromString(keys[i], strv[j + i]) for each key in turn: the
   * field is fetched first (a missing one ends the run), then stored. The
   * result is the map after the run and how the run ended; values stored
   * before a failure stay stored.
   */
  function ParseKeys(values: map<string, Value>, keys: seq<string>, kinds: map<string, AttrKind>,
                     strv: seq<string>, j: nat, codec: Codec): (map<string, Value>, RowOutcome)
    requires forall k :: k in keys ==> k in kinds
    decreases |keys|
  {
    if keys == [] then (values, Parsed)
    else if j >= |strv| then (values, MissingValue(j))
    else
      match StoreField(values, keys[0], strv[j], kinds, codec)
      case None => (values, BadValue(j))
      case Some(stored) => ParseKeys(stored, keys[1..], kinds, strv, j + 1, codec)
  }

  /** ParseKeys on a non-empty run whose first field exists: one step, then the rest of the run. */
  lemma ParseKeysStep(values: map<string, Value>, keys: seq<string>, kinds: map<string, AttrKind>,
                      strv: seq<string>, j: nat, codec: Codec)
    requires forall k :: k in keys ==> k in kinds
    requires keys != [] && j < |strv|
    ensures forall i :: 0 < i < |keys| ==> keys[i] == keys[1..][i - 1]
    ensures forall k :: k in keys <==> k == keys[0] || k in keys[1..]
    ensures ParseKeys(values, keys, kinds, strv, j, codec) ==
      if keys[0] == TypeNameKey then ParseKeys(values, keys[1..], kinds, strv, j + 1, codec)
      else if codec.parse(kinds[keys[0]], strv[j]).None? then (values, BadValue(j))
      else ParseKeys(values[keys[0] := codec.parse(kinds[keys[0]], strv[j]).value], keys[1..], kinds, strv, j + 1, codec)
  {
  }

  /**
   * How a run of parses ends: it succeeds exactly when every key has a
   * field and every field other than typeName's parses; a missing field is
   * reported at the first index past the row, a bad one at its own index,
   * with every earlier field parsed.
   */
  lemma {:induction false} ParseKeysOutcome(values: map<string, Value>, keys: seq<string>, kinds: map<string, AttrKind>,
                                            strv: seq<string>, j: nat, codec: Codec)
    requires forall k :: k in keys ==> k in kinds
    ensures var r := ParseKeys(values, keys, kinds, strv, j, codec).1;
      && (r == Parsed <==>
            (keys == [] || j + |keys| <= |strv|) &&
            forall i :: 0 <= i < |keys| && j + i < |strv| && keys[i] != TypeNameKey ==> codec.parse(kinds[keys[i]], strv[j + i]).Some?)
      && (r.MissingValue? ==>
            && r.index == Max(j, |strv|) && |strv| < j + |keys|
            && forall i :: 0 <= i < |keys| && j + i < |strv| && keys[i] != TypeNameKey ==> codec.parse(kinds[keys[i]], strv[j + i]).Some?)
      && (r.BadValue? ==>
            && j <= r.index < |strv| && r.index < j + |keys|
            && keys[r.index - j] != TypeNameKey
            && codec.parse(kinds[keys[r.index - j]], strv[r.index]).None?
            && forall i :: 0 <= i < r.index - j && keys[i] != TypeNameKey ==> codec.parse(kinds[keys[i]], strv[j + i]).Some?)
    decreases |keys|
  {
    if keys != [] && j < |strv| {
      ParseKeysStep(values, keys, kinds, strv, j, codec);
      var stored := StoreField(values, keys[0], strv[j], kinds, codec);
      if stored.Some? {
        var next := stored.value;
        ParseKeysOutcome(next, keys[1..], kinds, strv, j + 1, codec);
        assert ParseKeys(values, keys, kinds, strv, j, codec) == ParseKeys(next, keys[1..], kinds, strv, j + 1, codec);
      }
    }
  }

  /** A run of parses changes only the keys of the run: other keys keep their values and no other key appears. */
  lemma {:induction false} ParseKeysFrame(values: map<string, Value>, keys: seq<string>, kinds: map<string, AttrKind>,
                                          strv: seq<string>, j: nat, codec: Codec)
    requires forall k :: k in keys ==> k in kinds
    ensures var r := ParseKeys(values, keys, kinds, strv, j, codec).0;
      && (forall k :: k in values ==> k in r && (k !in keys ==> r[k] == values[k]))
      && (forall k :: k in r ==> k in values || k in keys)
    decreases |keys|
  {
    if keys != [] && j < |strv| {
      ParseKeysStep(values, keys, kinds, strv, j, codec);
      if keys[0] == TypeNameKey {
        ParseKeysFrame(values, keys[1..], kinds, strv, j + 1, codec);
      } else if codec.parse(kinds[keys[0]], strv[j]).Some? {
        ParseKeysFrame(values[keys[0] := codec.parse(kinds[keys[0]], strv[j]).value], keys[1..], kinds, strv, j + 1, codec);
      }
    }
  }

  /** After a successful run over distinct keys, the i-th key holds the value parsed from field j + i. */
  lemma {:induction false} ParseKeysStores(values: map<string, Value>, keys: seq<string>, kinds: map<string, AttrKind>,
                                           strv: seq<string>, j: nat, codec: Codec)
    requires forall k :: k in keys ==> k in kinds
    requires Distinct(keys)
    requires ParseKeys(values, keys, kinds, strv, j, codec).1 == Parsed
    ensures var r := ParseKeys(values, keys, kinds, strv, j, codec).0;
      forall i :: 0 <= i < |keys| && keys[i] != TypeNameKey ==>
        j + i < |strv| && keys[i] in r && Some(r[keys[i]]) == codec.parse(kinds[keys[i]], strv[j + i])
    decreases |keys|
  {
    if keys != [] {
      ParseKeysOutcome(values, keys, kinds, strv, j, codec);
      ParseKeysStep(values, keys, kinds, strv, j, codec);
      var rest := keys[1..];
      DistinctTail(keys);
      if keys[0] == TypeNameKey {
        ParseKeysStores(values, rest, kinds, strv, j + 1, codec);
      } else {
        var v := codec.parse(kinds[keys[0]], strv[j]).value;
        ParseKeysStores(values[keys[0] := v], rest, kinds, strv, j + 1, codec);
        ParseKeysFrame(values[keys[0] := v], rest, kinds, strv, j + 1, codec);
        assert keys[0] !in rest;
      }
    }
  }

  /** The source's parsing loop, index j advancing with the key iterator; it computes ParseKeys. */
  method ParseRow(values: map<string, Value>, keys: seq<string>, kinds: map<string, AttrKind>,
                  strv: seq<string>, start: nat, codec: Codec) returns (vals: map<string, Value>, outcome: RowOutcome)
    requires forall k :: k in keys ==> k in kinds
    ensures (vals, outcome) == ParseKeys(values, keys, kinds, strv, start, codec)
  {
    vals := values;
    var i := 0;
    var j := start;
    while i < |keys|
      invariant 0 <= i <= |keys| && j == start + i
      invariant ParseKeys(vals, keys[i..], kinds, strv, j, codec) == ParseKeys(values, keys, kinds, strv, start, codec)
    {
      assert keys[i..][0] == keys[i] && keys[i..][1..] == keys[i + 1..];
      if j >= |strv| {
        return vals, MissingValue(j);
      }
      var key := keys[i];
      var field := strv[j];
      j := j + 1;
      var stored := StoreField(vals, key, field, kinds, codec);
      if stored.None? {
        return vals, BadValue(j - 1);
      }
      vals := stored.value;
      i := i + 1;
    }
    return vals, Parsed;
  }

  /** Parsing two runs of keys from consecutive fields is parsing their concatenation. */
  lemma {:induction false} ParseKeysAppend(values: map<string, Value>, keys: seq<string>, more: seq<string>,
                                           kinds: map<string, AttrKind>, strv: seq<string>, j: nat, codec: Codec)
    requires forall k :: k in keys + more ==> k in kinds
    ensures ParseKeys(values, keys + more, kinds, strv, j, codec) ==
      var first := ParseKeys(values, keys, kinds, strv, j, codec);
      if first.1 == Parsed then ParseKeys(first.0, more, kinds, strv, j + |keys|, codec) else first
    decreases |keys|
  {
    if keys == [] {
      assert keys + more == more;
    } else {
      assert (keys + more)[0] == keys[0] && (keys + more)[1..] == keys[1..] + more;
      if j < |strv| && keys[0] != TypeNameKey && codec.parse(kinds[keys[0]], strv[j]).Some? {
        ParseKeysAppend(values[keys[0] := codec.parse(kinds[keys[0]], strv[j]).value], keys[1..], more, kinds, strv, j + 1, codec);
      } else if j < |strv| && keys[0] == TypeNameKey {
        ParseKeysAppend(values, keys[1..], more, kinds, strv, j + 1, codec);
      }
    }
  }

  /** The values overwritten by every key of `keys`, taken from `values`. */
  function Overwrite(init: map<string, Value>, values: map<string, Value>, keys: seq<string>): map<string, Value>
    requires forall k :: k in keys ==> k in values
  {
    init + map k | k in keys :: values[k]
  }

  /** getValueAsString for each key in turn: the descriptor's kind prints the stored value. */
  function Formatted(values: map<string, Value>, keys: seq<string>, kinds: map<string, AttrKind>, codec: Codec): (r: seq<string>)
    requires forall k :: k in keys ==> k in kinds && k in values
    ensures |r| == |keys|
    ensures forall i :: 0 <= i < |keys| ==> r[i] == codec.format(kinds[keys[i]], values[keys[i]])
    decreases |keys|
  {
    if keys == [] then [] else [codec.format(kinds[keys[0]], values[keys[0]])] + Formatted(values, keys[1..], kinds, codec)
  }

  /**
   * Printed values parse back: a row whose fields from index |prefix| on
   * are the printed values of distinct keys parses into exactly those
   * values, when the codec round-trips.
   */
  lemma {:induction false} ParseFormatted(init: map<string, Value>, values: map<string, Value>, keys: seq<string>,
                                          kinds: map<string, AttrKind>, codec: Codec, prefix: seq<string>)
    requires RoundTrips(codec)
    requires Distinct(keys) && TypeNameKey !in keys
    requires forall k :: k in keys ==> k in kinds && k in values
    ensures ParseKeys(init, keys, kinds, prefix + Formatted(values, keys, kinds, codec), |prefix|, codec)
      == (Overwrite(init, values, keys), Parsed)
    decreases |keys|
  {
    var row := prefix + Formatted(values, keys, kinds, codec);
    if keys == [] {
      assert Overwrite(init, values, keys) == init;
    } else {
      var k0, rest := keys[0], keys[1..];
      var f0 := codec.format(kinds[k0], values[k0]);
      var prefix' := prefix + [f0];
      DistinctTail(keys);
      assert row == prefix' + Formatted(values, rest, kinds, codec) by {
        assert Formatted(values, keys, kinds, codec) == [f0] + Formatted(values, rest, kinds, codec);
      }
      assert row[|prefix|] == f0;
      assert codec.parse(kinds[k0], f0) == Some(values[k0]);
      ParseKeysStep(init, keys, kinds, row, |prefix|, codec);
      ParseFormatted(init[k0 := values[k0]], values, rest, kinds, codec, prefix');
      OverwriteStep(init, values, keys);
    }
  }

  /** Overwriting the head key first and then the rest is overwriting all the keys. */
  lemma OverwriteStep(init: map<string, Value>, values: map<string, Value>, keys: seq<string>)
    requires keys != [] && forall k :: k in keys ==> k in values
    ensures Overwrite(init[keys[0] := values[keys[0]]], values, keys[1..]) == Overwrite(init, values, keys)
  {
    assert forall k :: k in keys <==> k == keys[0] || k in keys[1..];
  }

  /** The loop of getCSV: the separator and the printed value of each key, appended in key order. */
  method AppendFields(str: string, values: map<string, Value>, keys: seq<string>, kinds: map<string, AttrKind>,
                      codec: Codec, sep: char) returns (r: string)
    requires forall k :: k in keys ==> k in kinds && k in values
    ensures r == str + Suffix(Formatted(values, keys, kinds, codec), sep)
  {
    ghost var fields := Formatted(values, keys, kinds, codec);
    r := str;
    var i := 0;
    while i < |keys|
      invariant 0 <= i <= |keys|
      invariant r == str + Suffix(fields[..i], sep)
    {
      SuffixSnoc(fields[..i], fields[i], sep);
      assert fields[..i + 1] == fields[..i] + [fields[i]];
      r := r + [sep] + codec.format(kinds[keys[i]], values[keys[i]]);
      i := i + 1;
    }
    assert fields[..|keys|] == fields;
  }

  /** The loop of getCSVHeader: the first key, then the separator and each further key. */
  method JoinKeys(keys: seq<string>, sep: char) returns (r: string)
    requires |keys| > 0
    ensures r == Join(keys, sep)
  {
    r := keys[0];
    var i := 1;
    assert keys[..1] == [keys[0]];
    while i < |keys|
      invariant 1 <= i <= |keys|
      invariant r == Join(keys[..i], sep)
    {
      JoinSnoc(keys[..i], keys[i], sep);
      assert keys[..i + 1] == keys[..i] + [keys[i]];
      r := r + [sep] + keys[i];
      i := i + 1;
    }
    assert keys[..|keys|] == keys;
  }

  /** A non-empty suffix is the separator followed by the joined fields. */
  lemma {:induction false} SuffixIsJoin(fields: seq<string>, sep: char)
    requires |fields| > 0
    ensures Suffix(fields, sep) == [sep] + Join(fields, sep)
    decreases |fields|
  {
    if |fields| > 1 {
      SuffixIsJoin(fields[1..], sep);
    } else {
      assert fields[1..] == [];
    }
  }

  /** Splitting at a separator splits the two sides independently. */
  lemma {:induction false} SplitConcat(a: string, b: string, sep: char)
    ensures Split(a + [sep] + b, sep) == Split(a, sep) + Split(b, sep)
    decreases |a|
  {
    var s := a + [sep] + b;
    if sep !in a {
      FirstIndexAfterField(a, b, sep);
      CutAt(a, b, sep, |a|);
      SplitAt(s, sep, |a|);
    } else {
      var i := FirstIndex(a, sep);
      CutAt(a, b, sep, i);
      FirstIndexUnique(s, sep, i);
      SplitAt(s, sep, i);
      SplitAt(a, sep, i);
      SplitConcat(a[i + 1..], b, sep);
      ConsAssoc(a[..i], Split(a[i + 1..], sep), Split(b, sep));
    }
  }

  /** A row whose first separator is at index i splits into the field before it and the fields after it. */
  lemma SplitAt(s: string, sep: char, i: nat)
    requires sep in s && FirstIndex(s, sep) == i
    ensures Split(s, sep) == [s[..i]] + Split(s[i + 1..], sep)
  {
  }

  /** One field in front of two concatenated lists. */
  lemma ConsAssoc(f: string, p: seq<string>, q: seq<string>)
    ensures [f] + (p + q) == ([f] + p) + q
  {
  }

  /** The pieces of `a + [sep] + b` on either side of an index into `a` or of the separator. */
  lemma CutAt(a: string, b: string, sep: char, i: nat)
    requires i <= |a|
    ensures (a + [sep] + b)[..i] == a[..i]
    ensures i < |a| ==> (a + [sep] + b)[i] == a[i] && (a + [sep] + b)[i + 1..] == a[i + 1..] + [sep] + b
    ensures i == |a| ==> (a + [sep] + b)[i] == sep && (a + [sep] + b)[i + 1..] == b && a[..i] == a
  {
  }

  /** The index of the first separator is the index of any separator with none before it. */
  lemma {:induction false} FirstIndexUnique(s: string, c: char, i: nat)
    requires i < |s| && s[i] == c && c !in s[..i]
    ensures FirstIndex(s, c) == i
    decreases i
  {
    if i > 0 {
      assert s[0] == s[..i][0];
      assert s[1..][..i - 1] == s[..i][1..];
      FirstIndexUnique(s[1..], c, i - 1);
    }
  }

  /** A row followed by appended fields splits into the row's fields and then those fields. */
  lemma SplitAppended(prefix: string, fields: seq<string>, sep: char)
    requires Unseparated(fields, sep)
    ensures Split(prefix + Suffix(fields, sep), sep) == Split(prefix, sep) + fields
  {
    if fields == [] {
      assert prefix + Suffix(fields, sep) == prefix;
    } else {
      SuffixIsJoin(fields, sep);
      assert prefix + Suffix(fields, sep) == prefix + [sep] + Join(fields, sep);
      SplitConcat(prefix, Join(fields, sep), sep);
      SplitJoin(fields, sep);
    }
  }

  /**
   * The row written by getCSV parses back: splitting the base row followed
   * by the appended values of `keys`, and parsing those keys from the
   * field after the base fields, restores every value.
   */
  lemma RowRoundTrip(init: map<string, Value>, values: map<string, Value>, keys: seq<string>,
                     kinds: map<string, AttrKind>, codec: Codec, baseRow: string, sep: char)
    requires RoundTrips(codec)
    requires Distinct(keys) && TypeNameKey !in keys
    requires forall k :: k in keys ==> k in kinds && k in values
    requires Unseparated(Formatted(values, keys, kinds, codec), sep)
    ensures ParseKeys(init, keys, kinds, Split(baseRow + Suffix(Formatted(values, keys, kinds, codec), sep), sep),
                      |Split(baseRow, sep)|, codec)
      == (Overwrite(init, values, keys), Parsed)
  {
    SplitAppended(baseRow, Formatted(values, keys, kinds, codec), sep);
    ParseFormatted(init, values, keys, kinds, codec, Split(baseRow, sep));
  }

  // The two error dialogs of setValues. After the failing `strv[j++]` the
  // counter j is one past the field that was being read.

  /**
   * A header of base and own keys and a row of base fields and printed
   * own values split into the same number of fields, and each own field
   * sits under its key.
   */
  lemma HeaderAligned(baseKeys: seq<string>, own: seq<string>, values: map<string, Value>,
                      kinds: map<string, AttrKind>, codec: Codec, baseRow: string, sep: char)
    requires |baseKeys| > 0
    requires forall k :: k in own ==> k in kinds && k in values
    requires |Split(baseRow, sep)| == |baseKeys|
    requires Unseparated(baseKeys + own, sep)
    requires Unseparated(Formatted(values, own, kinds, codec), sep)
    ensures var header := Split(Join(baseKeys + own, sep), sep);
      var row := Split(baseRow + Suffix(Formatted(values, own, kinds, codec), sep), sep);
      && |header| == |row| == |baseKeys| + |own|
      && forall i :: |baseKeys| <= i < |row| ==>
           header[i] == own[i - |baseKeys|]
           && row[i] == codec.format(kinds[own[i - |baseKeys|]], values[own[i - |baseKeys|]])
  {
    var fields := Formatted(values, own, kinds, codec);
    SplitJoin(baseKeys + own, sep);
    SplitAppended(baseRow, fields, sep);
    UnderKeys(baseKeys, own, Split(baseRow, sep), fields);
  }

  /** Two lists of equal-length prefixes followed by equal-length tails line up index by index in their tails. */
  lemma UnderKeys(baseKeys: seq<string>, own: seq<string>, baseFields: seq<string>, fields: seq<string>)
    requires |baseFields| == |baseKeys| && |fields| == |own|
    ensures forall i :: |baseKeys| <= i < |baseKeys| + |own| ==>
      (baseKeys + own)[i] == own[i - |baseKeys|] && (baseFields + fields)[i] == fields[i - |baseKeys|]
  {
  }

  /** The key the bad-value dialog names, as written: aKeys[j-2], the key before the rejected field's key. */
  function BadValueKeyAsWritten(allKeys: seq<string>, bad: nat): string
    requires 1 <= bad < |allKeys|
  {
    var j := bad + 1;
    allKeys[j - 2]
  }

  /** The key the bad-value dialog should name: aKeys[j-1], the key of the rejected field strv[j-1]. */
  function BadValueKey(allKeys: seq<string>, bad: nat): string
    requires bad < |allKeys|
  {
    var j := bad + 1;
    allKeys[j - 1]
  }

  /** As written, the dialog never names the key whose value it quotes. */
  lemma BadValueKeyAsWrittenIsWrong(allKeys: seq<string>, bad: nat)
    requires Distinct(allKeys) && 1 <= bad < |allKeys|
    ensures BadValueKeyAsWritten(allKeys, bad) != allKeys[bad]
    ensures BadValueKeyAsWritten(allKeys, bad) == allKeys[bad - 1]
  {
  }

  /**
   * The corrected dialog names the key whose field failed to parse: for a
   * run of keys aligned with the row (the key at index i of allKeys is read
   * from field i), a BadValue outcome at `bad` names allKeys[bad], and that
   * key's descriptor rejects strv[bad].
   */
  lemma BadValueKeyNamesRejectedKey(values: map<string, Value>, allKeys: seq<string>, kinds: map<string, AttrKind>,
                                    strv: seq<string>, j: nat, codec: Codec)
    requires j <= |allKeys|
    requires forall k :: k in allKeys[j..] ==> k in kinds
    requires ParseKeys(values, allKeys[j..], kinds, strv, j, codec).1.BadValue?
    ensures var bad := ParseKeys(values, allKeys[j..], kinds, strv, j, codec).1.index;
      && bad < |allKeys| && bad < |strv|
      && BadValueKey(allKeys, bad) == allKeys[bad]
      && BadValueKey(allKeys, bad) != TypeNameKey
      && BadValueKey(allKeys, bad) in kinds
      && codec.parse(kinds[BadValueKey(allKeys, bad)], strv[bad]).None?
  {
    ParseKeysOutcome(values, allKeys[j..], kinds, strv, j, codec);
    var bad := ParseKeys(values, allKeys[j..], kinds, strv, j, codec).1.index;
    assert allKeys[j..][bad - j] == allKeys[bad];
  }

  /**
   * The "Prior values are" text of the missing-value dialog: strv[i] and a
   * space for each i from `from` up to (not including) `upTo`; None when an
   * index runs past the row (a second IndexOutOfBoundsException).
   */
  function PriorValues(strv: seq<string>, from: nat, upTo: nat): Option<string>
    decreases upTo - from
  {
    if from >= upTo then Some("")
    else if from >= |strv| then None
    else
      match PriorValues(strv, from + 1, upTo)
      case None => None
      case Some(rest) => Some(strv[from] + " " + rest)
  }

  /** Every field of the row, each followed by a space. */
  function Spaced(strv: seq<string>): string
    decreases |strv|
  {
    if strv == [] then "" else strv[0] + " " + Spaced(strv[1..])
  }

  /**
   * As written, the loop runs i up to j-1 = |strv|, one past the last
   * field: it always fails, so the dialog is never shown and the exception
   * that escapes is the one raised inside the handler.
   */
  lemma {:induction false} MissingValueDialogAsWrittenFails(strv: seq<string>, from: nat)
    requires from <= |strv|
    ensures PriorValues(strv, from, |strv| + 1) == None
    decreases |strv| - from
  {
    if from < |strv| {
      MissingValueDialogAsWrittenFails(strv, from + 1);
    }
  }

  /** With the loop bound j-1 = |strv|, the dialog lists every field of the row. */
  lemma {:induction false} MissingValueDialogLists(strv: seq<string>, from: nat)
    requires from <= |strv|
    ensures PriorValues(strv, from, |strv|) == Some(Spaced(strv[from..]))
    decreases |strv| - from
  {
    if from < |strv| {
      MissingValueDialogLists(strv, from + 1);
      assert strv[from..][1..] == strv[from + 1..];
    } else {
      assert strv[from..] == [];
    }
  }
}
