// Endstop bookkeeping (src/endstop_checker.rs): the status cache every thread
// keeps of the endstop switches, and the line-number index the GPIO watcher uses.
module EndstopChecker {
  import opened Common
  import opened Messages
  import opened Config

  /** The last reported state of each endstop; an endstop with no report is absent. */
  datatype EndstopStatusClient = EndstopStatusClient(endstopHit: map<EndstopIdentifier, bool>)

  /** `is_endstop_hit`: the last report for `id`, if any. */
  function IsEndstopHit(c: EndstopStatusClient, id: EndstopIdentifier): Option<bool> {
    if id in c.endstopHit then Some(c.endstopHit[id]) else None
  }

  /** `EndstopStatusClient::new`: nothing has been reported yet. */
  function NewEndstopStatusClient(): (c: EndstopStatusClient)
    ensures forall id :: IsEndstopHit(c, id) == None
  {
    EndstopStatusClient(map[])
  }

  /**
   * `process_message`: records one report. The owner of the client replaces its
   * copy with the result, which is the in-place insert of the source.
   */
  function ProcessMessage(c: EndstopStatusClient, msg: EndstopHitMsg): (r: EndstopStatusClient)
    ensures IsEndstopHit(r, msg.endstop) == Some(msg.value)
    ensures forall id :: id != msg.endstop ==> IsEndstopHit(r, id) == IsEndstopHit(c, id)
  {
    EndstopStatusClient(c.endstopHit[msg.endstop := msg.value])
  }

  /** A later report for the same endstop replaces the earlier one. */
  lemma LaterReportWins(c: EndstopStatusClient, first: EndstopHitMsg, second: EndstopHitMsg)
    requires first.endstop == second.endstop
    ensures ProcessMessage(ProcessMessage(c, first), second) == ProcessMessage(c, second)
  {
  }

  /** `index` maps each GPIO line of `lines` back to an endstop wired to it. */
  ghost predicate IsLineIndex(lines: map<EndstopIdentifier, nat>, index: map<nat, EndstopIdentifier>) {
    index.Keys == lines.Values &&
    forall l :: l in index ==> index[l] in lines && lines[index[l]] == l
  }

  /**
   * The loop of `EndstopChecker::new` that builds `line_to_endstop_id`. Entries are
   * visited in an unspecified order (a HashMap's), so when two endstops share a
   * line either may win; when lines are distinct the index is the exact inverse.
   */
  method InvertLines(lines: map<EndstopIdentifier, nat>) returns (index: map<nat, EndstopIdentifier>)
    ensures IsLineIndex(lines, index)
    ensures DistinctEndstopLines(lines) ==>
      forall id :: id in lines ==> lines[id] in index && index[lines[id]] == id
  {
    index := map[];
    var remaining := lines.Keys;
    while remaining != {}
      invariant remaining <= lines.Keys
      invariant forall id :: id in lines && id !in remaining ==> lines[id] in index
      invariant forall l :: l in index ==> index[l] in lines && index[l] !in remaining && lines[index[l]] == l
      decreases remaining
    {
      var id :| id in remaining;
      index := index[lines[id] := id];
      remaining := remaining - {id};
    }
    forall l | l in lines.Values
      ensures l in index
    {
      var id :| id in lines && lines[id] == l;
    }
  }

  /** The GPIO watcher's fixed data; the watching itself (`run`) is hardware polling. */
  class EndstopChecker {
    var chipName: string
    var lines: map<EndstopIdentifier, nat>
    var lineToEndstopId: map<nat, EndstopIdentifier>
    var msgSenders: seq<Sender>

    constructor (initialConfig: RustGrindConfig, msgSenders: seq<Sender>)
      ensures chipName == initialConfig.gpioChipName
      ensures lines == initialConfig.endstopConfig
      ensures IsLineIndex(lines, lineToEndstopId)
      ensures DistinctEndstopLines(lines) ==>
        forall id :: id in lines ==> lineToEndstopId[lines[id]] == id
      ensures this.msgSenders == msgSenders
    {
      var index := InvertLines(initialConfig.endstopConfig);
      chipName := initialConfig.gpioChipName;
      lines := initialConfig.endstopConfig;
      lineToEndstopId := index;
      this.msgSenders := msgSenders;
    }
  }
}
