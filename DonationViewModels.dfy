/**
 * `DonationViewModel`: the observable donation state and the operations
 * that change it through the donation gateway. Deleting or updating a
 * donation is followed by a re-read of the owner's list.
 */
module DonationViewModels {

  import opened Wrappers
  import opened DonationModel
  import opened Repositories

  /** The four state flows the view model exposes. */
  datatype DonationVmState = DonationVmState(loading: bool, error: Option<string>, donationAdded: bool, donations: seq<Donation>)

  const InitialDonationState := DonationVmState(false, None, false, [])

  /**
   * One completed operation with its outcome. For `DeleteDonation` and
   * `UpdateDonation`, `listed` is the outcome of the whole try block: the
   * mutation's failure, or else the re-read's reply.
   */
  datatype DonationEvent =
    | AddDonation(donation: Donation, done: Status<()>)
    | GetDonationsByUserId(userId: string, listed: Status<seq<Donation>>)
    | DeleteDonation(donationId: string, userId: string, listed: Status<seq<Donation>>)
    | UpdateDonation(donation: Donation, userId: string, listed: Status<seq<Donation>>)
    | ClearError
    | ResetDonationAddedState
  {
    /** Every operation but the two resets runs in a coroutine with the loading protocol. */
    predicate Launched() { !ClearError? && !ResetDonationAddedState? }

    /** The operations that end by storing a list read from the gateway. */
    predicate Lists() { GetDonationsByUserId? || DeleteDonation? || UpdateDonation? }

    predicate Failed()
    {
      || (AddDonation? && done.Failed?)
      || (Lists() && listed.Failed?)
    }

    function Message(): Option<string>
      requires Failed()
    {
      if AddDonation? then done.message else listed.message
    }
  }

  /** The outcome of "mutate, then re-read": a failed mutation stops before the re-read. */
  function ThenRefetch(mutation: Status<()>, refetch: Status<seq<Donation>>): Status<seq<Donation>>
  {
    if mutation.Ok? then refetch else Failed(mutation.message)
  }

  /** The state after one operation has run to completion. */
  function DonationStep(s: DonationVmState, e: DonationEvent): (t: DonationVmState)
    ensures e.ClearError? ==> t == s.(error := None)
    ensures e.ResetDonationAddedState? ==> t == s.(donationAdded := false)
    ensures e.Launched() ==> !t.loading
    ensures e.Failed() ==> t.donations == s.donations && t.donationAdded == s.donationAdded && t.error == e.Message()
    ensures e.Launched() && !e.Failed() ==> t.error == s.error
    ensures e.AddDonation? ==> t.donations == s.donations
    ensures e.AddDonation? && !e.Failed() ==> t.donationAdded
    ensures e.Lists() ==> t.donationAdded == s.donationAdded
    ensures e.Lists() && !e.Failed() ==> t.donations == e.listed.value
  {
    match e
    case AddDonation(_, r) =>
      if r.Ok? then s.(donationAdded := true, loading := false) else s.(error := r.message, loading := false)
    case GetDonationsByUserId(_, r) =>
      if r.Ok? then s.(donations := r.value, loading := false) else s.(error := r.message, loading := false)
    case DeleteDonation(_, _, r) =>
      if r.Ok? then s.(donations := r.value, loading := false) else s.(error := r.message, loading := false)
    case UpdateDonation(_, _, r) =>
      if r.Ok? then s.(donations := r.value, loading := false) else s.(error := r.message, loading := false)
    case ClearError =>
      s.(error := None)
    case ResetDonationAddedState =>
      s.(donationAdded := false)
  }

  /** The state after a history of completed operations, oldest first, starting from a fresh view model. */
  function RunDonation(h: seq<DonationEvent>): DonationVmState
  {
    if h == [] then InitialDonationState else DonationStep(RunDonation(h[..|h| - 1]), h[|h| - 1])
  }

  /** Running one more operation is one more step. */
  lemma RunDonationAppend(h: seq<DonationEvent>, e: DonationEvent)
    ensures RunDonation(h + [e]) == DonationStep(RunDonation(h), e)
  {
    assert (h + [e])[..|h|] == h;
  }

  /** The list of the last successful list-storing operation, or the empty list. */
  function LatestDonations(h: seq<DonationEvent>): seq<Donation>
  {
    if h == [] then []
    else
      var e := h[|h| - 1];
      if e.Lists() && !e.Failed() then e.listed.value else LatestDonations(h[..|h| - 1])
  }

  /** The message of the last failure, unless `clearError` came after it. */
  function LatestError(h: seq<DonationEvent>): Option<string>
  {
    if h == [] then None
    else
      var e := h[|h| - 1];
      if e.ClearError? then None else if e.Failed() then e.Message() else LatestError(h[..|h| - 1])
  }

  /** A donation was added and the flag has not been reset since. */
  predicate AddedSinceReset(h: seq<DonationEvent>)
  {
    exists i :: && 0 <= i < |h| && h[i].AddDonation? && !h[i].Failed()
                && forall j :: i < j < |h| ==> !h[j].ResetDonationAddedState?
  }

  /**
   * After any history, `donations` is the latest successfully read list,
   * `error` the latest uncleared failure's message, and `loading` is false.
   */
  lemma {:induction false} RunDonationFields(h: seq<DonationEvent>)
    ensures var s := RunDonation(h);
            s.donations == LatestDonations(h) && s.error == LatestError(h) && !s.loading
  {
    if h != [] {
      RunDonationFields(h[..|h| - 1]);
    }
  }

  /** The transient flag is up exactly when an addition succeeded and no reset followed it. */
  lemma {:induction false} DonationAddedFlag(h: seq<DonationEvent>)
    ensures RunDonation(h).donationAdded <==> AddedSinceReset(h)
  {
    if h != [] {
      var p, e := h[..|h| - 1], h[|h| - 1];
      DonationAddedFlag(p);
      assert forall j :: 0 <= j < |p| ==> h[j] == p[j];
      if e.AddDonation? && !e.Failed() {
        assert h[|h| - 1] == e;
      } else if e.ResetDonationAddedState? {
        if AddedSinceReset(h) {
          var i :| && 0 <= i < |h| && h[i].AddDonation? && !h[i].Failed()
                   && forall j :: i < j < |h| ==> !h[j].ResetDonationAddedState?;
          assert false;
        }
      } else {
        if AddedSinceReset(h) {
          var i :| && 0 <= i < |h| && h[i].AddDonation? && !h[i].Failed()
                   && forall j :: i < j < |h| ==> !h[j].ResetDonationAddedState?;
          assert i < |p| && p[i] == h[i];
          assert AddedSinceReset(p);
        }
        if AddedSinceReset(p) {
          var i :| && 0 <= i < |p| && p[i].AddDonation? && !p[i].Failed()
                   && forall j :: i < j < |p| ==> !p[j].ResetDonationAddedState?;
          assert h[i] == p[i];
          assert AddedSinceReset(h);
        }
      }
    }
  }

  class DonationViewModel {
    const repo: DonationRepo

    var loading: bool
    var error: Option<string>
    var donationAdded: bool
    var donations: seq<Donation>

    /** The operations completed so far, with their outcomes. */
    ghost var history: seq<DonationEvent>

    function State(): DonationVmState
      reads this
    {
      DonationVmState(loading, error, donationAdded, donations)
    }

    /** The flows hold what the completed operations made of them. */
    ghost predicate Valid()
      reads this
    {
      State() == RunDonation(history)
    }

    constructor (repo: DonationRepo)
      ensures Valid() && this.repo == repo && history == []
      ensures State() == InitialDonationState
    {
      this.repo := repo;
      loading, error, donationAdded, donations := false, None, false, [];
      history := [];
    }

    /** Appends `e` to the history, whose run has just been brought to `State()`. */
    ghost method Record(e: DonationEvent)
      requires State() == DonationStep(RunDonation(history), e)
      modifies this`history
      ensures history == old(history) + [e] && Valid()
    {
      RunDonationAppend(history, e);
      history := history + [e];
    }

    method AddDonation(donation: Donation)
      requires Valid()
      modifies this, repo
      ensures Valid()
      ensures repo.calls == old(repo.calls) + [AddDonationCall(donation)]
      ensures var e := DonationEvent.AddDonation(donation, repo.backend.addDonation(old(repo.calls), donation));
              history == old(history) + [e] && State() == DonationStep(old(State()), e)
    {
      loading := true;
      var r := repo.AddDonation(donation);
      if r.Ok? {
        donationAdded := true;
      } else {
        error := r.message;
      }
      loading := false;
      Record(DonationEvent.AddDonation(donation, r));
    }

    method GetDonationsByUserId(userId: string)
      requires Valid()
      modifies this, repo
      ensures Valid()
      ensures repo.calls == old(repo.calls) + [GetDonationsByUserIdCall(userId)]
      ensures var e := DonationEvent.GetDonationsByUserId(userId, repo.backend.getDonationsByUserId(old(repo.calls), userId));
              history == old(history) + [e] && State() == DonationStep(old(State()), e)
    {
      loading := true;
      var r := repo.GetDonationsByUserId(userId);
      if r.Ok? {
        donations := r.value;
      } else {
        error := r.message;
      }
      loading := false;
      Record(DonationEvent.GetDonationsByUserId(userId, r));
    }

    /** Deletes, then re-reads the owner's list; a failed delete makes no second call. */
    method DeleteDonation(donationId: string, userId: string)
      requires Valid()
      modifies this, repo
      ensures Valid()
      ensures var mutation := repo.backend.deleteDonation(old(repo.calls), donationId);
              var afterMutation := old(repo.calls) + [DeleteDonationCall(donationId)];
              && repo.calls == afterMutation + (if mutation.Ok? then [GetDonationsByUserIdCall(userId)] else [])
              && var e := DonationEvent.DeleteDonation(donationId, userId,
                            ThenRefetch(mutation, repo.backend.getDonationsByUserId(afterMutation, userId)));
                 history == old(history) + [e] && State() == DonationStep(old(State()), e)
    {
      loading := true;
      var m := repo.DeleteDonation(donationId);
      var r: Status<seq<Donation>>;
      if m.Ok? {
        r := repo.GetDonationsByUserId(userId);
      } else {
        r := Failed(m.message);
      }
      if r.Ok? {
        donations := r.value;
      } else {
        error := r.message;
      }
      loading := false;
      Record(DonationEvent.DeleteDonation(donationId, userId, r));
    }

    /** Updates, then re-reads the owner's list; a failed update makes no second call. */
    method UpdateDonation(donation: Donation, userId: string)
      requires Valid()
      modifies this, repo
      ensures Valid()
      ensures var mutation := repo.backend.updateDonation(old(repo.calls), donation);
              var afterMutation := old(repo.calls) + [UpdateDonationCall(donation)];
              && repo.calls == afterMutation + (if mutation.Ok? then [GetDonationsByUserIdCall(userId)] else [])
              && var e := DonationEvent.UpdateDonation(donation, userId,
                            ThenRefetch(mutation, repo.backend.getDonationsByUserId(afterMutation, userId)));
                 history == old(history) + [e] && State() == DonationStep(old(State()), e)
    {
      loading := true;
      var m := repo.UpdateDonation(donation);
      var r: Status<seq<Donation>>;
      if m.Ok? {
        r := repo.GetDonationsByUserId(userId);
      } else {
        r := Failed(m.message);
      }
      if r.Ok? {
        donations := r.value;
      } else {
        error := r.message;
      }
      loading := false;
      Record(DonationEvent.UpdateDonation(donation, userId, r));
    }

    /** Runs outside any coroutine and makes no gateway call. */
    method ClearError()
      requires Valid()
      modifies this
      ensures Valid()
      ensures history == old(history) + [DonationEvent.ClearError]
      ensures State() == old(State()).(error := None)
    {
      error := None;
      Record(DonationEvent.ClearError);
    }

    /** Lowers the transient flag once its consumer has seen it. */
    method ResetDonationAddedState()
      requires Valid()
      modifies this
      ensures Valid()
      ensures history == old(history) + [DonationEvent.ResetDonationAddedState]
      ensures State() == old(State()).(donationAdded := false)
    {
      donationAdded := false;
      Record(DonationEvent.ResetDonationAddedState);
    }
  }
}
