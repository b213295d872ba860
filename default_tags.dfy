/**
 * The default tags attached to every record: a list of "key:value" strings
 * from the configuration, each split at its colon into a dict entry.
 */
module DefaultTags {
  import opened Wrappers

  /** Python's `s.split(sep)`: the pieces between occurrences of `sep`, never none. */
  function Split(s: string, sep: char): (parts: seq<string>)
    ensures |parts| == multiset(s)[sep] + 1
    ensures forall i :: 0 <= i < |parts| ==> sep !in parts[i]
    decreases |s|
  {
    if |s| == 0 then [""]
    else
      var rest := Split(s[1..], sep);
      assert s == [s[0]] + s[1..];
      if s[0] == sep then [""] + rest
      else [[s[0]] + rest[0]] + rest[1..]
  }

  /** Python's `sep.join(parts)`. */
  function Join(parts: seq<string>, sep: char): string
    requires |parts| >= 1
  {
    if |parts| == 1 then parts[0] else parts[0] + [sep] + Join(parts[1..], sep)
  }

  /** Joining the pieces of a split gives back the string. */
  lemma {:induction false} JoinSplit(s: string, sep: char)
    ensures Join(Split(s, sep), sep) == s
    decreases |s|
  {
    if |s| > 0 {
      JoinSplit(s[1..], sep);
      var rest := Split(s[1..], sep);
      if s[0] != sep && |rest| > 1 {
        assert Split(s, sep)[1..] == rest[1..];
      }
    }
  }

  /** A prefix free of separators becomes the start of the first piece. */
  lemma {:induction false} SplitPrefix(a: string, t: string, sep: char)
    requires sep !in a
    ensures Split(a + t, sep) == [a + Split(t, sep)[0]] + Split(t, sep)[1..]
    decreases |a|
  {
    if |a| == 0 {
      assert a + t == t;
      assert a + Split(t, sep)[0] == Split(t, sep)[0];
    } else {
      assert (a + t)[0] == a[0];
      assert (a + t)[1..] == a[1..] + t;
      SplitPrefix(a[1..], t, sep);
      assert [a[0]] + (a[1..] + Split(t, sep)[0]) == a + Split(t, sep)[0];
    }
  }

  /** Splitting a join of separator-free pieces gives back the pieces. */
  lemma {:induction false} SplitJoin(parts: seq<string>, sep: char)
    requires |parts| >= 1
    requires forall i :: 0 <= i < |parts| ==> sep !in parts[i]
    ensures Split(Join(parts, sep), sep) == parts
  {
    if |parts| == 1 {
      SplitPrefix(parts[0], "", sep);
      assert parts[0] + "" == parts[0];
    } else {
      var rest := Join(parts[1..], sep);
      SplitJoin(parts[1..], sep);
      SplitPrefix(parts[0], [sep] + rest, sep);
      assert ([sep] + rest)[1..] == rest;
      assert parts[0] + [sep] + rest == parts[0] + ([sep] + rest);
      assert Split([sep] + rest, sep) == [""] + Split(rest, sep);
      assert parts[0] + "" == parts[0];
    }
  }

  /**
   * `(tag, value) = entry.split(":")`: the unpacking succeeds exactly when
   * the entry holds one colon.
   */
  function SplitTag(entry: string): (r: Option<(string, string)>)
    ensures r.Some? <==> multiset(entry)[':'] == 1
  {
    var parts := Split(entry, ':');
    if |parts| == 2 then Some((parts[0], parts[1])) else None
  }

  /** A successful split gives the text before and after the one colon. */
  lemma SplitTagParts(entry: string)
    requires SplitTag(entry).Some?
    ensures entry == SplitTag(entry).value.0 + ":" + SplitTag(entry).value.1
    ensures ':' !in SplitTag(entry).value.0 && ':' !in SplitTag(entry).value.1
  {
    JoinSplit(entry, ':');
  }

  /** Every "key:value" with colon-free halves parses back into those halves. */
  lemma SplitTagOfJoin(key: string, value: string)
    requires ':' !in key && ':' !in value
    ensures SplitTag(key + ":" + value) == Some((key, value))
  {
    SplitJoin([key, value], ':');
    assert Join([value], ':') == value;
  }

  /** Every entry splits into a key and a value. */
  predicate AllSplit(entries: seq<string>)
  {
    forall i :: 0 <= i < |entries| ==> SplitTag(entries[i]).Some?
  }

  /** The dict built by the loop over well-formed entries: each entry in turn sets its key. */
  function TagsOf(entries: seq<string>): map<string, string>
    requires AllSplit(entries)
  {
    if |entries| == 0 then map[]
    else
      var kv := SplitTag(entries[|entries| - 1]).value;
      TagsOf(entries[..|entries| - 1])[kv.0 := kv.1]
  }

  /** Two well-formed entries parse to their two bindings, the second winning on a shared key. */
  lemma TagsOfPair(k1: string, v1: string, k2: string, v2: string)
    requires ':' !in k1 && ':' !in v1 && ':' !in k2 && ':' !in v2
    ensures AllSplit([k1 + ":" + v1, k2 + ":" + v2])
    ensures TagsOf([k1 + ":" + v1, k2 + ":" + v2]) == map[k1 := v1, k2 := v2]
  {
    SplitTagOfJoin(k1, v1);
    SplitTagOfJoin(k2, v2);
    var e := [k1 + ":" + v1, k2 + ":" + v2];
    assert e[..1] == [k1 + ":" + v1];
    assert e[..1][..0] == [];
    assert AllSplit(e);
    assert TagsOf(e[..1]) == map[k1 := v1];
    assert TagsOf(e) == TagsOf(e[..1])[k2 := v2];
  }

  /** The keys of the parsed tags are exactly the keys of the entries. */
  lemma {:induction false} TagsOfKeys(entries: seq<string>, k: string)
    requires AllSplit(entries)
    ensures k in TagsOf(entries) <==>
              exists i :: 0 <= i < |entries| && SplitTag(entries[i]).value.0 == k
  {
    if |entries| > 0 {
      var n := |entries| - 1;
      var init := entries[..n];
      var last := SplitTag(entries[n]).value.0;
      TagsOfKeys(init, k);
      if k in TagsOf(entries) && k != last {
        var i :| 0 <= i < n && SplitTag(init[i]).value.0 == k;
        assert init[i] == entries[i];
      }
      if exists i :: 0 <= i < |entries| && SplitTag(entries[i]).value.0 == k {
        var i :| 0 <= i < |entries| && SplitTag(entries[i]).value.0 == k;
        if i < n {
          assert init[i] == entries[i];
        }
      }
    }
  }

  /** A key takes the value of the last entry that names it: later duplicates overwrite. */
  lemma {:induction false} TagsOfLastWins(entries: seq<string>, i: nat)
    requires AllSplit(entries)
    requires i < |entries|
    requires forall j :: i < j < |entries| ==>
               SplitTag(entries[j]).value.0 != SplitTag(entries[i]).value.0
    ensures SplitTag(entries[i]).value.0 in TagsOf(entries)
    ensures TagsOf(entries)[SplitTag(entries[i]).value.0] == SplitTag(entries[i]).value.1
  {
    var n := |entries| - 1;
    if i < n {
      var init := entries[..n];
      assert forall j :: 0 <= j < n ==> init[j] == entries[j];
      TagsOfLastWins(init, i);
    }
  }

  datatype ConfigError = MalformedTag(entry: string)

  /**
   * The default-tag loop of the callback's initialiser. A well-formed list
   * gives the dict of its entries; otherwise the first entry that does not
   * split into exactly two pieces aborts start-up.
   */
  method ParseDefaultTags(entries: seq<string>) returns (r: Result<map<string, string>, ConfigError>)
    ensures r.Success? <==> AllSplit(entries)
    ensures r.Success? ==> r.value == TagsOf(entries)
    ensures r.Failure? ==>
              exists i :: 0 <= i < |entries| && AllSplit(entries[..i])
                          && SplitTag(entries[i]).None? && r.error == MalformedTag(entries[i])
  {
    var tags := map[];
    var i := 0;
    while i < |entries|
      invariant 0 <= i <= |entries|
      invariant AllSplit(entries[..i])
      invariant tags == TagsOf(entries[..i])
    {
      var parsed := SplitTag(entries[i]);
      if parsed.None? {
        r := Failure(MalformedTag(entries[i]));
        assert AllSplit(entries[..i]) && SplitTag(entries[i]).None?;
        return;
      }
      assert entries[..i + 1][..i] == entries[..i];
      tags := tags[parsed.value.0 := parsed.value.1];
      i := i + 1;
    }
    assert entries[..i] == entries;
    return Success(tags);
  }
}
