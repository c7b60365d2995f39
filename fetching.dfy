/**
 * What the managers see of a data source: its name, its priority (lower is
 * tried earlier) and whether it offers a real-time quote. A call into a data
 * source is not modelled; its outcome is a parameter: data, an empty answer
 * (`None` or an empty frame), or a raised exception with its message.
 */
module Fetching {

  datatype Fetcher = Fetcher(name: string, priority: int, hasRealtimeQuote: bool)

  datatype CallOutcome<T> = Data(value: T) | Empty | Raised(message: string)

  function Priority(f: Fetcher): int { f.priority }

  function Names(fs: seq<Fetcher>): (r: seq<string>)
    ensures |r| == |fs| && forall i :: 0 <= i < |fs| ==> r[i] == fs[i].name
  {
    seq(|fs|, i requires 0 <= i < |fs| => fs[i].name)
  }

  /** The per-source line a failed daily-data attempt contributes: `[name] 失败: message`. */
  function FailureLine(name: string, message: string): string {
    "[" + name + "] 失败: " + message
  }

  /** The failure lines of the sources in `plan` whose call raised, in plan order. */
  function FailureLines<D>(plan: seq<Fetcher>, call: Fetcher -> CallOutcome<D>): seq<string>
  {
    if |plan| == 0 then []
    else
      var last := plan[|plan| - 1];
      FailureLines(plan[..|plan| - 1], call)
        + (if call(last).Raised? then [FailureLine(last.name, call(last).message)] else [])
  }

  lemma FailureLinesSnoc<D>(plan: seq<Fetcher>, f: Fetcher, call: Fetcher -> CallOutcome<D>)
    ensures FailureLines(plan + [f], call)
      == FailureLines(plan, call) + (if call(f).Raised? then [FailureLine(f.name, call(f).message)] else [])
  {
    assert (plan + [f])[..|plan|] == plan;
  }

  /** One line per raising source, and none for the others. */
  lemma {:induction false} FailureLinesCount<D>(plan: seq<Fetcher>, call: Fetcher -> CallOutcome<D>)
    ensures |FailureLines(plan, call)| <= |plan|
    ensures (forall i :: 0 <= i < |plan| ==> !call(plan[i]).Raised?) ==> FailureLines(plan, call) == []
  {
    if |plan| > 0 {
      FailureLinesCount(plan[..|plan| - 1], call);
    }
  }

  /** Python's `list.index`: the first position of `x`. */
  function IndexOf<T(==)>(s: seq<T>, x: T): (k: nat)
    requires x in s
    ensures k < |s| && s[k] == x && x !in s[..k]
  {
    if s[0] == x then 0 else 1 + IndexOf(s[1..], x)
  }
}
