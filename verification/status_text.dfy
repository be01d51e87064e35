/** The status messages whose text depends on data. */
module StatusText {

  import opened Wrappers
  import opened Decimal

  const ReadyPrefix: string := "ready ("

  /** `'ready ({count} nodemanager{s})'` with `s` chosen by `count > 1`. */
  function NodemanagerReady(count: nat): (m: string)
    ensures |m| >= 2 && m[|m| - 1] == ')' && (m[|m| - 2] == 's' <==> count > 1)
    ensures ReportedCount(m) == Some(count)
  {
    var t := " nodemanager" + (if count > 1 then "s" else "") + ")";
    ReportedCountOf(count, t);
    ReadyPrefix + FromNat(count) + t
  }

  /** The count a `ready (N nodemanager…)` message reports, if it is one. */
  function ReportedCount(msg: string): (r: Option<nat>)
    ensures r.Some? ==> |msg| > |ReadyPrefix| && msg[..|ReadyPrefix|] == ReadyPrefix
  {
    if |msg| >= |ReadyPrefix| && msg[..|ReadyPrefix|] == ReadyPrefix then
      var rest := msg[|ReadyPrefix|..];
      var k := DigitRun(rest);
      if k == 0 then None else Some(ToNat(rest[..k]))
    else None
  }

  /** The message ends in `s)` exactly when more than one nodemanager is counted. */
  lemma NodemanagerReadyPlural(count: nat)
    ensures var m := NodemanagerReady(count);
            |m| >= 2 && m[|m| - 1] == ')' && (m[|m| - 2] == 's' <==> count > 1)
  {
  }

  /** A rendered count after the prefix and before a non-digit is read back. */
  lemma ReportedCountOf(count: nat, t: string)
    requires |t| > 0 && !IsDigit(t[0])
    ensures ReportedCount(ReadyPrefix + FromNat(count) + t) == Some(count)
  {
    var d := FromNat(count);
    var m := ReadyPrefix + FromNat(count) + t;
    assert m == ReadyPrefix + (d + t);
    assert m[..|ReadyPrefix|] == ReadyPrefix;
    assert m[|ReadyPrefix|..] == d + t;
    DigitRunOfNumeral(d, t);
    assert (d + t)[..|d|] == d;
    ToNatFromNat(count);
  }

  /** The message reports the count it was built from. */
  lemma NodemanagerReadyCount(count: nat)
    ensures ReportedCount(NodemanagerReady(count)) == Some(count)
  {
    ReportedCountOf(count, " nodemanager" + (if count > 1 then "s" else "") + ")");
  }

  /** Different counts give different messages. */
  lemma NodemanagerReadyInjective(a: nat, b: nat)
    requires NodemanagerReady(a) == NodemanagerReady(b)
    ensures a == b
  {
    NodemanagerReadyCount(a);
    NodemanagerReadyCount(b);
  }
}
