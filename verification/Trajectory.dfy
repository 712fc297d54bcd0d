/** The canonical log's items, as far as the projections, the runner and the event loop read them, and
    the one rule for what an observation replaces. */
module Trajectory {
  import opened Prelude

  datatype Kind =
    | Observation | Assistant | AssistantState | Reasoning | Instruction | Repair
    | ToolCall | ToolProposal | ToolResult | ToolPlaceholder | OtherKind

  datatype Call = Call(id: string, name: string, arguments: string)

  datatype Result = Result(callID: string, name: string, output: string)

  /** Observation provenance; `media` holds the declared source of each attached image. */
  datatype Provenance = Provenance(user: bool, observer: string, source: string, media: seq<string>)

  datatype Payload =
    | Nothing
    | Called(call: Call)
    | Resulted(result: Result)
    | Stated(assistantID: string, detail: string)
    | Repaired(targetID: string, repairID: string)
    | Held(callID: string, detail: string)

  datatype EventMark = EventMark(
    eventID: string, name: string, source: string, channel: string, correlation: string, occurred: nat,
    supersedes: nat, batchID: string, batchIndex: nat, batchSize: nat)

  /** Provider-native state; empty bytes mean there is none. */
  datatype Native = Native(kind: string, bytes: seq<nat>)

  const NO_STATE := Native("", [])

  /** `common` says that the item passes the checks every item must pass. */
  datatype Item = Item(
    id: string, kind: Kind, time: nat, parents: seq<string>, revision: nat, invocation: string, phase: string,
    content: string, interrupted: bool, payload: Payload, provenance: Option<Provenance>, event: Option<EventMark>,
    native: Native, common: bool)

  predicate FromUser(x: Item) {
    x.kind.Observation? && if x.provenance.Some? then x.provenance.value.user else x.phase != "observer"
  }

  ghost predicate UniqueIds(items: seq<Item>) {
    forall i, j :: 0 <= i < j < |items| ==> items[i].id != items[j].id
  }

  // ---- Supersession ------------------------------------------------------------------------

  function Supersedes(x: Item): nat { if x.event.Some? then x.event.value.supersedes else 0 }

  predicate SameStream(left: Item, right: Item) {
    if left.event.None? || right.event.None? then true
    else
      var l, r := left.event.value, right.event.value;
      if l.correlation != "" && r.correlation != "" then l.correlation == r.correlation
      else
        && l.channel == r.channel
        && (l.source == r.source || (l.channel == "voice" && FromUser(left) && FromUser(right)))
  }

  predicate HasRevision(x: Item, revision: nat) { x.kind.Observation? && x.revision == revision }

  predicate InStream(x: Item, item: Item) { x.kind.Observation? && SameStream(x, item) }

  /** The last of the first n items with the property, or -1. */
  function LastWhere(items: seq<Item>, n: nat, keep: Item -> bool): (k: int)
    requires n <= |items|
    ensures -1 <= k < n
    ensures k >= 0 ==> keep(items[k])
    ensures forall i :: k < i < n ==> !keep(items[i])
  {
    if n == 0 then -1 else if keep(items[n - 1]) then n - 1 else LastWhere(items, n - 1, keep)
  }

  /** The item of the prefix that an observation replaces, if its claim to replace one is canonical. */
  function Resolve(prefix: seq<Item>, item: Item): (r: Option<nat>)
    ensures r.Some? ==> r.value < |prefix|
  {
    var wanted := Supersedes(item);
    if wanted == 0 || !item.common || !item.kind.Observation? || item.revision == 0 || wanted >= item.revision then None
    else
      var target := LastWhere(prefix, |prefix|, x => HasRevision(x, wanted));
      if target < 0 || !prefix[target].common || !SameStream(prefix[target], item) then None
      else
        var latest := LastWhere(prefix, |prefix|, x => InStream(x, item));
        if latest >= 0 && prefix[latest].revision != wanted then None
        else if prefix[target].id !in item.parents then None
        else Some(target)
  }

  /** A resolved claim names an older revision of the same stream, the newest of that revision and the
      newest of that stream, and cites it as a cause. */
  lemma ResolveIsCanonical(prefix: seq<Item>, item: Item)
    ensures var r := Resolve(prefix, item);
      r.Some? ==>
        && item.kind.Observation? && 0 < Supersedes(item) < item.revision
        && prefix[r.value].kind.Observation? && prefix[r.value].revision == Supersedes(item)
        && SameStream(prefix[r.value], item) && prefix[r.value].id in item.parents
        && (forall i :: r.value < i < |prefix| ==> !HasRevision(prefix[i], Supersedes(item)))
        && (forall i :: r.value < i < |prefix| ==> !InStream(prefix[i], item))
  {
    var r := Resolve(prefix, item);
    if r.Some? {
      var wanted := Supersedes(item);
      var latest := LastWhere(prefix, |prefix|, x => InStream(x, item));
      assert InStream(prefix[r.value], item);
      assert latest >= r.value;
      assert HasRevision(prefix[latest], wanted);
    }
  }
}
