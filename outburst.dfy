/** The outburst path of generateExcuse: spotting a status question, and
    `generateOutburst`, which picks a canned rant by snark level. */
module Outburst {
  import opened Js
  import opened Draws

  /** worker.js:66-71: the words whose presence makes a message a status
      question, in the order the disjunction tests them. */
  const StatusTriggers: seq<string> := ["status", "done", "finish", "progress", "when", "deadline"]

  /** A list of canned rants; never empty. */
  type Rants = s: seq<string> | |s| > 0 witness [""]

  /** The `outbursts` object of generateOutburst: its three own properties.
      `ExcuseData.Outbursts` holds the worker's rants. */
  datatype OutburstTable = OutburstTable(low: Rants, medium: Rants, high: Rants)

  /** `isStatusQuestion`: one of the trigger words occurs in the lower-cased
      message. */
  function IsStatusQuestion(messageLC: string): (b: bool)
    ensures b <==> exists w :: w in StatusTriggers && Includes(messageLC, w)
  {
    Includes(messageLC, "status") ||
    Includes(messageLC, "done") ||
    Includes(messageLC, "finish") ||
    Includes(messageLC, "progress") ||
    Includes(messageLC, "when") ||
    Includes(messageLC, "deadline")
  }

  /** The lower-cased message shows the lower-cased text of each of its
      slices in the same place. */
  lemma {:induction false} LowerCaseSlice(message: string, i: nat, n: nat)
    requires i + n <= |message|
    ensures ToLowerCase(message)[i..i + n] == ToLowerCase(message[i..i + n])
  {
  }

  /** The test ignores case: a trigger word spelt with any mix of upper- and
      lower-case letters anywhere in the message makes it a status
      question. */
  lemma {:induction false} TriggerInAnyCase(message: string, spelling: string, i: nat)
    requires StartsAt(message, spelling, i)
    requires ToLowerCase(spelling) in StatusTriggers
    ensures IsStatusQuestion(ToLowerCase(message))
  {
    var w := ToLowerCase(spelling);
    LowerCaseSlice(message, i, |spelling|);
    assert StartsAt(ToLowerCase(message), w, i);
  }

  /** Every name a plain object inherits from Object.prototype. Looking one
      of them up in the outburst object finds a function (or, for
      `__proto__`, Object.prototype itself): a truthy value that is not a
      list, so indexing it gives `undefined`. */
  const InheritedNames: set<string> := {
    "constructor", "hasOwnProperty", "isPrototypeOf", "propertyIsEnumerable",
    "toLocaleString", "toString", "valueOf", "__proto__",
    "__defineGetter__", "__defineSetter__", "__lookupGetter__", "__lookupSetter__"
  }

  /** `outbursts[snarkLevel] || outbursts.medium` for a snark level that is
      an own property of the object, or no property at all. */
  function OutburstList(outbursts: OutburstTable, snark: Value): Rants {
    if snark == Str("low") then outbursts.low
    else if snark == Str("high") then outbursts.high
    else outbursts.medium
  }

  /** generateOutburst(snarkLevel) with the draw `d`: a rant of the level's
      list, the medium list for any level the object does not have, and
      `undefined` for an inherited name. */
  function GenerateOutburst(outbursts: OutburstTable, snark: Value, d: real): (r: Value)
    requires 0.0 <= d < 1.0
    ensures snark == Str("low") ==> r.Str? && r.s in outbursts.low
    ensures snark == Str("medium") ==> r.Str? && r.s in outbursts.medium
    ensures snark == Str("high") ==> r.Str? && r.s in outbursts.high
    ensures snark.Str? && snark.s in InheritedNames ==> r == Undefined
    ensures !(snark.Str? && (snark.s in InheritedNames || snark.s == "low" || snark.s == "high")) ==>
      r.Str? && r.s in outbursts.medium
  {
    if snark.Str? && snark.s in InheritedNames then Undefined
    else
      var list := OutburstList(outbursts, snark);
      Str(list[Pick(d, |list|)])
  }
}
