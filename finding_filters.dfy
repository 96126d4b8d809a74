/** The filter panel of src/components/Findings/FindingFilters.tsx: the offered
    severities and statuses, the two checkbox toggles, and the status label. */
module FindingFilters {

  /** The severities offered, in display order (lower case, unlike the
      upper-case `FindingSeverity` type of the API). */
  const OfferedSeverities: seq<string> := ["critical", "high", "medium", "low", "info"]

  /** The statuses offered, in display order. */
  const OfferedStatuses: seq<string> := ["open", "in_progress", "resolved", "false_positive"]

  predicate NoDuplicates(s: seq<string>) {
    forall i, j :: 0 <= i < j < |s| ==> s[i] != s[j]
  }

  /** Both offered lists hold five and four distinct values. */
  lemma OfferedListsDistinct()
    ensures |OfferedSeverities| == 5 && NoDuplicates(OfferedSeverities)
    ensures |OfferedStatuses| == 4 && NoDuplicates(OfferedStatuses)
  {
  }

  /** `s.filter(v => v !== x)`. */
  function RemoveAll(s: seq<string>, x: string): (r: seq<string>)
    ensures |r| <= |s|
    ensures forall y :: y in r <==> y in s && y != x
  {
    if s == [] then []
    else if s[0] == x then RemoveAll(s[1..], x)
    else [s[0]] + RemoveAll(s[1..], x)
  }

  /** Filtering out a value that is not there changes nothing. */
  lemma {:induction false} RemoveAllAbsent(s: seq<string>, x: string)
    requires x !in s
    ensures RemoveAll(s, x) == s
  {
    if s != [] {
      RemoveAllAbsent(s[1..], x);
    }
  }

  /** Filtering works piece by piece, so the kept elements stay in order. */
  lemma {:induction false} RemoveAllAppend(a: seq<string>, b: seq<string>, x: string)
    ensures RemoveAll(a + b, x) == RemoveAll(a, x) + RemoveAll(b, x)
  {
    if a == [] {
      assert a + b == b;
    } else {
      assert (a + b)[1..] == a[1..] + b;
      RemoveAllAppend(a[1..], b, x);
    }
  }

  /** Filtering removes every occurrence of `x` and nothing else. */
  lemma {:induction false} RemoveAllMultiset(s: seq<string>, x: string)
    ensures multiset(RemoveAll(s, x)) == multiset(s)[x := 0]
  {
    if s != [] {
      RemoveAllMultiset(s[1..], x);
      assert s == [s[0]] + s[1..];
    }
  }

  /** `toggleSeverity` / `toggleStatus`: a selected value is filtered out,
      any other value is appended at the end. */
  function Toggle(selected: seq<string>, x: string): (r: seq<string>)
    ensures x in r <==> x !in selected
    ensures forall y :: y != x ==> (y in r <==> y in selected)
  {
    if x in selected then RemoveAll(selected, x) else selected + [x]
  }

  /** The new selection handed to `onSeveritiesChange`. A selection of offered
      severities stays one when an offered severity is toggled. */
  function ToggleSeverity(selectedSeverities: seq<string>, severity: string): (r: seq<string>)
    ensures severity in r <==> severity !in selectedSeverities
    ensures (forall y :: y in selectedSeverities ==> y in OfferedSeverities) && severity in OfferedSeverities ==>
      forall y :: y in r ==> y in OfferedSeverities
  {
    Toggle(selectedSeverities, severity)
  }

  /** The new selection handed to `onStatusesChange`. A selection of offered
      statuses stays one when an offered status is toggled. */
  function ToggleStatus(selectedStatuses: seq<string>, status: string): (r: seq<string>)
    ensures status in r <==> status !in selectedStatuses
    ensures (forall y :: y in selectedStatuses ==> y in OfferedStatuses) && status in OfferedStatuses ==>
      forall y :: y in r ==> y in OfferedStatuses
  {
    Toggle(selectedStatuses, status)
  }

  /** Toggling in removes every copy; toggling out appends after the
      untouched selection. */
  lemma ToggleShape(selected: seq<string>, x: string)
    ensures x in selected ==> multiset(Toggle(selected, x)) == multiset(selected)[x := 0]
    ensures x !in selected ==>
      Toggle(selected, x)[..|selected|] == selected && |Toggle(selected, x)| == |selected| + 1
      && Toggle(selected, x)[|selected|] == x
  {
    RemoveAllMultiset(selected, x);
  }

  /** Checking and then unchecking a value that was not selected restores the
      selection exactly. */
  lemma ToggleTwiceFromUnselected(selected: seq<string>, x: string)
    requires x !in selected
    ensures Toggle(Toggle(selected, x), x) == selected
  {
    RemoveAllAppend(selected, [x], x);
    RemoveAllAbsent(selected, x);
    assert RemoveAll([x], x) == [];
  }

  /** Unchecking and then re-checking a selected value of a duplicate-free
      selection restores its contents, with the value moved to the end. */
  lemma ToggleTwiceFromSelected(selected: seq<string>, x: string)
    requires x in selected && NoDuplicates(selected)
    ensures multiset(Toggle(Toggle(selected, x), x)) == multiset(selected)
    ensures Toggle(Toggle(selected, x), x) == RemoveAll(selected, x) + [x]
  {
    var i :| 0 <= i < |selected| && selected[i] == x;
    assert selected == selected[..i] + [x] + selected[i + 1..];
    assert x !in selected[..i] && x !in selected[i + 1..] by {
      forall j | 0 <= j < |selected| && j != i ensures selected[j] != x {
        if j < i { assert selected[j] != selected[i]; } else { assert selected[i] != selected[j]; }
      }
    }
    assert multiset(selected)[x] == 1 by {
      calc {
        multiset(selected)[x];
        (multiset(selected[..i]) + multiset([x]) + multiset(selected[i + 1..]))[x];
        multiset(selected[..i])[x] + 1 + multiset(selected[i + 1..])[x];
      }
    }
    RemoveAllMultiset(selected, x);
    assert x !in RemoveAll(selected, x);
  }

  /** So the order is not always restored: with "critical" checked first,
      unchecking and re-checking it moves it behind "high". */
  lemma ToggleTwiceReorders()
    ensures ToggleSeverity(ToggleSeverity(["critical", "high"], "critical"), "critical") == ["high", "critical"]
  {
    assert RemoveAll(["critical", "high"], "critical") == ["high"] by {
      assert ["critical", "high"][1..] == ["high"];
      assert RemoveAll(["high"], "critical") == ["high"] by {
        assert ["high"][1..] == [];
      }
    }
  }

  /** A duplicate-free selection stays duplicate-free. */
  lemma ToggleKeepsNoDuplicates(selected: seq<string>, x: string)
    requires NoDuplicates(selected)
    ensures NoDuplicates(Toggle(selected, x))
  {
    if x in selected {
      RemoveAllKeepsNoDuplicates(selected, x);
    }
  }

  lemma {:induction false} RemoveAllKeepsNoDuplicates(s: seq<string>, x: string)
    requires NoDuplicates(s)
    ensures NoDuplicates(RemoveAll(s, x))
  {
    if s != [] {
      RemoveAllKeepsNoDuplicates(s[1..], x);
      if s[0] != x {
        assert s[0] !in s[1..] by {
          forall j | 0 <= j < |s[1..]| ensures s[1..][j] != s[0] {
            assert s[0] != s[j + 1];
          }
        }
        var r := RemoveAll(s[1..], x);
        assert [s[0]] + r == RemoveAll(s, x);
        forall i, j | 0 <= i < j < |[s[0]] + r| ensures ([s[0]] + r)[i] != ([s[0]] + r)[j] {
          if i == 0 { assert ([s[0]] + r)[j] in r; }
        }
      }
    }
  }

  /** `s.replace(c, d)` with a one-character pattern: only the first `c` is replaced. */
  function ReplaceFirst(s: string, c: char, d: char): (r: string)
    ensures |r| == |s|
  {
    if s == [] then []
    else if s[0] == c then [d] + s[1..]
    else [s[0]] + ReplaceFirst(s[1..], c, d)
  }

  /** The index of the first `c` in `s`. */
  function FirstIndex(s: string, c: char): (k: nat)
    requires c in s
    ensures k < |s| && s[k] == c && c !in s[..k]
  {
    if s[0] == c then 0 else 1 + FirstIndex(s[1..], c)
  }

  /** Without a `c` the string is unchanged. */
  lemma {:induction false} ReplaceFirstAbsent(s: string, c: char, d: char)
    requires c !in s
    ensures ReplaceFirst(s, c, d) == s
  {
    if s != [] {
      ReplaceFirstAbsent(s[1..], c, d);
    }
  }

  /** With a `c`, exactly the character at the first `c` becomes `d`. */
  lemma {:induction false} ReplaceFirstAt(s: string, c: char, d: char)
    requires c in s
    ensures ReplaceFirst(s, c, d) == s[..FirstIndex(s, c)] + [d] + s[FirstIndex(s, c) + 1..]
  {
    if s[0] != c {
      assert c in s[1..];
      ReplaceFirstAt(s[1..], c, d);
      var k := FirstIndex(s[1..], c);
      assert s[..k + 1] == [s[0]] + s[1..][..k];
      assert s[k + 2..] == s[1..][k + 1..];
    }
  }

  /** The checkbox label of a status: `status.replace('_', ' ')`. */
  function StatusLabel(status: string): (caption: string)
    ensures '_' !in status ==> caption == status
    ensures '_' in status ==>
      caption == status[..FirstIndex(status, '_')] + " " + status[FirstIndex(status, '_') + 1..]
  {
    if '_' in status then
      ReplaceFirstAt(status, '_', ' ');
      ReplaceFirst(status, '_', ' ')
    else
      ReplaceFirstAbsent(status, '_', ' ');
      ReplaceFirst(status, '_', ' ')
  }

  /** The label of `prefix_suffix` is `prefix suffix` when the prefix has no
      underscore, whatever the suffix holds. */
  lemma UnderscoreLabel(prefix: string, suffix: string)
    requires '_' !in prefix
    ensures StatusLabel(prefix + "_" + suffix) == prefix + " " + suffix
  {
    var s := prefix + "_" + suffix;
    assert s[..|prefix|] == prefix && s[|prefix| + 1..] == suffix;
    LabelAt(s, |prefix|);
  }

  /** The offered statuses with an underscore lose it in their labels. */
  lemma UnderscoreStatusLabels()
    ensures StatusLabel("in_progress") == "in progress"
    ensures StatusLabel("false_positive") == "false positive"
  {
    InProgressLabel();
    FalsePositiveLabel();
  }

  lemma InProgressLabel()
    ensures StatusLabel("in_progress") == "in progress"
  {
    UnderscoreLabel("in", "progress");
    assert "in" + "_" + "progress" == "in_progress";
    assert "in" + " " + "progress" == "in progress";
  }

  lemma FalsePositiveLabel()
    ensures StatusLabel("false_positive") == "false positive"
  {
    UnderscoreLabel("false", "positive");
    assert "false" + "_" + "positive" == "false_positive";
    assert "false" + " " + "positive" == "false positive";
  }

  /** The offered statuses without an underscore are their own labels. */
  lemma PlainStatusLabels()
    ensures StatusLabel("open") == "open" && StatusLabel("resolved") == "resolved"
  {
    ReplaceFirstAbsent("open", '_', ' ');
    ReplaceFirstAbsent("resolved", '_', ' ');
  }

  /** Only the first underscore is rewritten: a second one survives. */
  lemma SecondUnderscoreKept()
    ensures StatusLabel("a_b_c") == "a b_c"
  {
    UnderscoreLabel("a", "b_c");
    assert "a" + "_" + "b_c" == "a_b_c";
    assert "a" + " " + "b_c" == "a b_c";
  }

  /** The label of a status whose first underscore is at `k`. */
  lemma LabelAt(status: string, k: nat)
    requires k < |status| && status[k] == '_' && '_' !in status[..k]
    ensures StatusLabel(status) == status[..k] + " " + status[k + 1..]
  {
    ReplaceFirstAt(status, '_', ' ');
  }
}
