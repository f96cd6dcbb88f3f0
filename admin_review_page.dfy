/**
 * The admin review queue: the tools that look pending, and the approve and reject buttons, which
 * mark the tool as being processed while they work. The tool list, the confirmation dialog and the
 * remote delete are inputs; each handler is one atomic step.
 */
module AdminReviewPage {
  import opened Wrappers
  import opened Strings
  import opened Seqs
  import opened Types
  import TS = ToolService

  const PendingMarker := "[PENDING]"
  const PendingFullDescription := "Pending Review"
  const ApprovedFullDescription := "Approved AI tool for your workflow."
  const AdminSubmitter := "admin1"

  /** A tool counts as pending when either description says so or an administrator did not submit it. */
  predicate IsPending(t: Tool) {
    t.fullDescription == PendingFullDescription || Contains(t.shortDescription, PendingMarker)
    || t.submittedBy != Some(AdminSubmitter)
  }

  function PendingTest(): Tool -> bool {
    (t: Tool) => IsPending(t)
  }

  /** The queue built from the catalog: the pending tools, in catalog order. */
  function PendingOf(all: seq<Tool>): seq<Tool> {
    Filter(all, PendingTest())
  }

  lemma PendingOfSpec(all: seq<Tool>, x: Tool)
    ensures x in PendingOf(all) <==> x in all && IsPending(x)
  {
    if x in PendingOf(all) {
      FilterMember(all, PendingTest(), x);
    }
  }

  function OtherId(id: String): Tool -> bool {
    (t: Tool) => t.id != id
  }

  /** `prev.filter(t => t.id !== id)`. */
  function WithoutId(s: seq<Tool>, id: String): seq<Tool> {
    Filter(s, OtherId(id))
  }

  /** Dropping an id from the queue keeps every other entry, and a queue without that id is unchanged. */
  lemma WithoutIdSpec(s: seq<Tool>, id: String, x: Tool)
    ensures x in WithoutId(s, id) <==> x in s && x.id != id
    ensures (forall i :: 0 <= i < |s| ==> s[i].id != id) ==> WithoutId(s, id) == s
  {
    if x in WithoutId(s, id) {
      FilterMember(s, OtherId(id), x);
    }
    if forall i :: 0 <= i < |s| ==> s[i].id != id {
      FilterAllPass(s, OtherId(id));
    }
  }

  /** The update an approval sends: the first marker removed, a pending full description replaced. */
  function ApprovalUpdates(t: Tool): TS.ToolUpdates {
    TS.NoUpdates.(
      shortDescription := Some(ReplaceFirst(t.shortDescription, PendingMarker, [])),
      fullDescription := Some(if t.fullDescription == PendingFullDescription then ApprovedFullDescription else t.fullDescription))
  }

  /** The approved tool: only the descriptions and updatedAt change, and the full description is no longer pending. */
  lemma ApprovedToolSpec(t: Tool, now: Time)
    ensures var a := TS.ApplyUpdates(t, ApprovalUpdates(t), now);
      && a == t.(shortDescription := a.shortDescription, fullDescription := a.fullDescription, updatedAt := now)
      && a.fullDescription != PendingFullDescription
      && (t.fullDescription != PendingFullDescription ==> a.fullDescription == t.fullDescription)
      && (!Contains(t.shortDescription, PendingMarker) ==> a.shortDescription == t.shortDescription)
  {
    if !Contains(t.shortDescription, PendingMarker) {
      ReplaceFirstAbsent(t.shortDescription, PendingMarker, []);
    }
    assert ApprovedFullDescription[0] != PendingFullDescription[0];
  }

  /** With a marker, the approved short description is the text around its first occurrence. */
  lemma ApprovedShortDescription(t: Tool, now: Time) returns (k: nat)
    requires Contains(t.shortDescription, PendingMarker)
    ensures var s := t.shortDescription;
      k + |PendingMarker| <= |s| && s[k..k + |PendingMarker|] == PendingMarker
      && TS.ApplyUpdates(t, ApprovalUpdates(t), now).shortDescription == s[..k] + s[k + |PendingMarker|..]
  {
    k := ReplaceFirstSplits(t.shortDescription, PendingMarker, []);
  }

  /** An administrator's tool without a marker leaves the queue once approved. */
  lemma ApprovedAdminToolLeavesQueue(t: Tool, now: Time)
    requires t.submittedBy == Some(AdminSubmitter) && !Contains(t.shortDescription, PendingMarker)
    ensures !IsPending(TS.ApplyUpdates(t, ApprovalUpdates(t), now))
  {
    ApprovedToolSpec(t, now);
  }

  /**
   * Approval does not change the submitter, so a tool someone other than the administrator submitted
   * is still pending after its approval and comes back on the next fetch.
   */
  lemma ApprovedUserToolStaysPending(t: Tool, now: Time)
    requires t.submittedBy != Some(AdminSubmitter)
    ensures IsPending(TS.ApplyUpdates(t, ApprovalUpdates(t), now))
  {
  }

  /** The page's state. */
  class ReviewState {
    var pendingSubmissions: seq<Tool>
    var processingIds: set<String>

    constructor()
      ensures pendingSubmissions == [] && processingIds == {}
    {
      pendingSubmissions, processingIds := [], {};
    }

    /** `fetchPendingSubmissions`: the queue from the catalog; a failed fetch leaves the queue as it was. */
    method FetchPendingSubmissions(allTools: Result<seq<Tool>, String>)
      modifies this
      ensures allTools.Success? ==> pendingSubmissions == PendingOf(allTools.value)
      ensures allTools.Failure? ==> pendingSubmissions == old(pendingSubmissions)
      ensures processingIds == old(processingIds)
    {
      if allTools.Success? {
        pendingSubmissions := PendingOf(allTools.value);
      }
    }

    /**
     * `handleApprove`: the id is processing while the tool is updated (`during`), and the tool,
     * when it is in the queue, gets the approval update and leaves the queue; afterwards the id is
     * no longer processing.
     */
    method HandleApprove(toolId: String, store: TS.ToolStore, now: Time) returns (ghost during: set<String>)
      modifies this, store
      ensures during == old(processingIds) + {toolId} && toolId in during
      ensures processingIds == old(processingIds) - {toolId}
      ensures var i := IndexOfKey(old(pendingSubmissions), ToolId, toolId);
        if i < 0 then pendingSubmissions == old(pendingSubmissions) && store.tools == old(store.tools)
        else
          var updates := ApprovalUpdates(old(pendingSubmissions)[i]);
          var j := IndexOfKey(old(store.tools), ToolId, toolId);
          && pendingSubmissions == WithoutId(old(pendingSubmissions), toolId)
          && store.tools == (if j < 0 then old(store.tools) else old(store.tools)[j := TS.ApplyUpdates(old(store.tools)[j], updates, now)])
    {
      processingIds := processingIds + {toolId};
      during := processingIds;
      var i := IndexOfKey(pendingSubmissions, ToolId, toolId);
      if i >= 0 {
        var updated := store.UpdateToolDetails(toolId, ApprovalUpdates(pendingSubmissions[i]), now);
        pendingSubmissions := WithoutId(pendingSubmissions, toolId);
      }
      processingIds := processingIds - {toolId};
    }

    /**
     * `handleReject`: nothing happens unless confirmed; otherwise the tool is deleted while its id
     * is processing, and it leaves the queue whatever the deletion reports.
     */
    method HandleReject(toolId: String, confirmed: bool, store: TS.ToolStore, remoteDelete: String -> bool)
      returns (ghost during: set<String>)
      modifies this, store
      ensures !confirmed ==>
        pendingSubmissions == old(pendingSubmissions) && processingIds == old(processingIds)
        && store.tools == old(store.tools)
      ensures confirmed ==>
        && during == old(processingIds) + {toolId}
        && processingIds == old(processingIds) - {toolId}
        && pendingSubmissions == WithoutId(old(pendingSubmissions), toolId)
      ensures confirmed && StartsWith(toolId, "supabase-") ==> store.tools == old(store.tools)
      ensures confirmed && !StartsWith(toolId, "supabase-") ==>
        var i := IndexOfKey(old(store.tools), ToolId, toolId);
        store.tools == (if i < 0 then old(store.tools) else old(store.tools)[..i] + old(store.tools)[i + 1..])
    {
      during := processingIds;
      if !confirmed {
        return;
      }
      processingIds := processingIds + {toolId};
      during := processingIds;
      var deleted := store.DeleteTool(toolId, remoteDelete);
      pendingSubmissions := WithoutId(pendingSubmissions, toolId);
      processingIds := processingIds - {toolId};
    }
  }
}
