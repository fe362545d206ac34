/** The loop every `compare_data` runs: visit the payload items in order,
    return True at the first item that differs from the remote record, raise
    if looking the item up raises, and return False when every item matched.
    Each module supplies its own per-item rule. */
module Compare {
  import opened Values
  import opened Outcomes

  /** What one iteration concludes about one payload item. */
  datatype Verdict = Same | Differs | Raises(error: PyError)

  type Rule = (string, Json) -> Verdict

  /** The value of a `compare_data` loop: the verdict of the first item that
      is not the same decides; False when there is none. */
  function Scan(items: Payload, rule: Rule): (r: Flow<bool>)
    ensures r.Stop? ==> r.outcome.Crash? && exists i | 0 <= i < |items| :: rule(items[i].0, items[i].1).Raises?
    ensures items == [] ==> r == Go(false)
    decreases |items|
  {
    if items == [] then Go(false)
    else match rule(items[0].0, items[0].1)
      case Same =>
        var rest := Scan(items[1..], rule);
        assert forall i | 1 <= i < |items| :: items[i] == items[1..][i - 1];
        rest
      case Differs => Go(true)
      case Raises(e) => Stop(Crash(e))
  }

  /** The loop itself, with its early returns. */
  method CompareItems(items: Payload, rule: Rule) returns (r: Flow<bool>)
    ensures r == Scan(items, rule)
  {
    var i := 0;
    while i < |items|
      invariant 0 <= i <= |items|
      invariant Scan(items[i..], rule) == Scan(items, rule)
    {
      var (key, value) := items[i];
      assert items[i..][1..] == items[i + 1..];
      match rule(key, value)
      case Differs =>
        return Go(true);
      case Raises(e) =>
        return Stop(Crash(e));
      case Same =>
        i := i + 1;
    }
    return Go(false);
  }

  /** The loop reports no difference exactly when every item is the same. */
  lemma {:induction false} ScanSame(items: Payload, rule: Rule)
    ensures Scan(items, rule) == Go(false) <==>
      forall i | 0 <= i < |items| :: rule(items[i].0, items[i].1) == Same
  {
    if items != [] {
      ScanSame(items[1..], rule);
      assert forall i | 1 <= i < |items| :: items[i] == items[1..][i - 1];
    }
  }

  /** The loop reports a difference exactly when some item differs and every
      item before it is the same. */
  lemma {:induction false} ScanDiffers(items: Payload, rule: Rule)
    ensures Scan(items, rule) == Go(true) <==>
      exists i | 0 <= i < |items| :: rule(items[i].0, items[i].1) == Differs &&
        forall j | 0 <= j < i :: rule(items[j].0, items[j].1) == Same
  {
    if items != [] {
      ScanDiffers(items[1..], rule);
      assert forall i | 1 <= i < |items| :: items[i] == items[1..][i - 1];
      if rule(items[0].0, items[0].1) == Same && Scan(items, rule) == Go(true) {
        var k :| 0 <= k < |items[1..]| && rule(items[1..][k].0, items[1..][k].1) == Differs &&
          forall j | 0 <= j < k :: rule(items[1..][j].0, items[1..][j].1) == Same;
        assert rule(items[k + 1].0, items[k + 1].1) == Differs;
      }
      if rule(items[0].0, items[0].1) == Same && Scan(items, rule) != Go(true) {
        forall i | 1 <= i < |items| && rule(items[i].0, items[i].1) == Differs
          ensures exists j | 0 <= j < i :: rule(items[j].0, items[j].1) != Same
        {
          var k :| 0 <= k < i - 1 && rule(items[1..][k].0, items[1..][k].1) != Same;
          assert rule(items[k + 1].0, items[k + 1].1) != Same;
        }
      }
    }
  }

  /** A rule that never raises makes the loop total: it returns True exactly
      when some item differs. */
  lemma ScanTotal(items: Payload, rule: Rule)
    requires forall i | 0 <= i < |items| :: !rule(items[i].0, items[i].1).Raises?
    ensures Scan(items, rule) ==
      Go(exists i | 0 <= i < |items| :: rule(items[i].0, items[i].1) == Differs)
  {
    ScanOutcomes(items, rule);
    var r := Scan(items, rule);
    assert r.Go?;
    if r.value {
      ScanDiffers(items, rule);
    } else {
      ScanSame(items, rule);
    }
  }

  /** The loop ends in one of three ways: False, True, or the exception of the
      first item that raises. */
  lemma {:induction false} ScanOutcomes(items: Payload, rule: Rule)
    ensures Scan(items, rule).Go? ||
      exists i | 0 <= i < |items| :: rule(items[i].0, items[i].1).Raises? &&
        Scan(items, rule) == Stop(Crash(rule(items[i].0, items[i].1).error))
  {
    if items != [] {
      ScanOutcomes(items[1..], rule);
      if rule(items[0].0, items[0].1) == Same && Scan(items, rule).Stop? {
        var k :| 0 <= k < |items[1..]| && rule(items[1..][k].0, items[1..][k].1).Raises? &&
          Scan(items[1..], rule) == Stop(Crash(rule(items[1..][k].0, items[1..][k].1).error));
        assert items[1..][k] == items[k + 1];
      }
    }
  }

  /** Two rules that agree on every item give the same loop result. */
  lemma {:induction false} ScanAgree(items: Payload, r1: Rule, r2: Rule)
    requires forall i | 0 <= i < |items| :: r1(items[i].0, items[i].1) == r2(items[i].0, items[i].1)
    ensures Scan(items, r1) == Scan(items, r2)
  {
    if items != [] {
      assert forall i | 1 <= i < |items| :: items[i] == items[1..][i - 1];
      ScanAgree(items[1..], r1, r2);
    }
  }

  /** Appending items the rule finds the same changes no verdict. */
  lemma {:induction false} ScanAppendSame(items: Payload, more: Payload, rule: Rule)
    requires forall i | 0 <= i < |more| :: rule(more[i].0, more[i].1) == Same
    ensures Scan(items + more, rule) == Scan(items, rule)
  {
    if items == [] {
      assert items + more == more;
      ScanSame(more, rule);
    } else {
      assert (items + more)[0] == items[0];
      assert (items + more)[1..] == items[1..] + more;
      ScanAppendSame(items[1..], more, rule);
    }
  }

  /** An inner loop run as one iteration of an outer one: the first verdict
      that is not Same, or Same when every item is. */
  function Inner(items: Payload, rule: Rule): (v: Verdict)
    ensures v == Same <==> Scan(items, rule) == Go(false)
    ensures v == Differs <==> Scan(items, rule) == Go(true)
    ensures v.Raises? ==> Scan(items, rule) == Stop(Crash(v.error))
    decreases |items|
  {
    if items == [] then Same
    else match rule(items[0].0, items[0].1)
      case Same => Inner(items[1..], rule)
      case Differs => Differs
      case Raises(e) => Raises(e)
  }

  // ---------------------------------------------------------------------
  // The per-item rules the modules share.

  /** `if remote[key] != value: return True`, raising KeyError on a missing key. */
  function StrictItem(remote: Record, key: string, value: Json): (v: Verdict)
    ensures v == Same <==> key in remote && remote[key] == value
    ensures v.Raises? <==> key !in remote
  {
    if key !in remote then Raises(KeyError(key))
    else if remote[key] != value then Differs
    else Same
  }

  function StrictRule(remote: Record): Rule {
    (k, v) => StrictItem(remote, k, v)
  }

  /** Strict comparison on every key except the named ones, which `continue`. */
  function SkipRule(skip: set<string>, remote: Record): Rule {
    (k, v) => if k in skip then Same else StrictItem(remote, k, v)
  }

  /** `if key not in remote or remote[key] != value: return True`. */
  function PresentEqualRule(remote: Record): Rule {
    (k, v) => if k !in remote || remote[k] != v then Differs else Same
  }

  /** Under strict comparison, no difference means the remote record holds
      every payload item, and conversely. */
  lemma StrictNoDiff(items: Payload, remote: Record)
    ensures Scan(items, StrictRule(remote)) == Go(false) <==> Holds(remote, items)
  {
    ScanSame(items, StrictRule(remote));
  }

  /** With skipped keys, no difference means the remote record holds every
      payload item whose key is not skipped, and conversely. */
  lemma SkipNoDiff(skip: set<string>, items: Payload, remote: Record)
    ensures Scan(items, SkipRule(skip, remote)) == Go(false) <==>
      forall i | 0 <= i < |items| && items[i].0 !in skip ::
        items[i].0 in remote && remote[items[i].0] == items[i].1
  {
    ScanSame(items, SkipRule(skip, remote));
  }

  /** Skipping keys the payload does not have changes nothing: the loop is
      the strict one. */
  lemma SkipAbsentKeys(skip: set<string>, items: Payload, remote: Record)
    requires forall i | 0 <= i < |items| :: items[i].0 !in skip
    ensures Scan(items, SkipRule(skip, remote)) == Scan(items, StrictRule(remote))
  {
    ScanAgree(items, SkipRule(skip, remote), StrictRule(remote));
  }

  /** The tolerant rule never raises; it reports a difference exactly when
      the remote record does not hold the payload. */
  lemma PresentEqualDiff(items: Payload, remote: Record)
    ensures Scan(items, PresentEqualRule(remote)) == Go(!Holds(remote, items))
  {
    var rule := PresentEqualRule(remote);
    ScanTotal(items, rule);
  }

  /** Under strict comparison the loop raises only for a key the remote
      record lacks, and never raises when it has them all. */
  lemma StrictRaisesOnlyOnMissingKey(items: Payload, remote: Record)
    requires forall i | 0 <= i < |items| :: items[i].0 in remote
    ensures Scan(items, StrictRule(remote)) == Go(!Holds(remote, items))
  {
    var rule := StrictRule(remote);
    ScanTotal(items, rule);
  }
}
