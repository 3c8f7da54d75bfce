/** The two bounded polling loops of an order (src/acme.rs:195-252), against the order states
    of section 7.1.6 of RFC 8555. */
module Polling {
  import opened Prelude

  datatype Status = Pending | Ready | Processing | Valid | Invalid

  /** What one refresh brings. */
  datatype Poll = Failed | Shows(status: Status)

  datatype PollError =
    | RefreshFailed
    | StillPending
    | BecameInvalid
    | FinalizeRefused
    | StillProcessing
    | Unexpected
    | NoCertificate

  const MAX_RETRIES: nat := 20

  /** How many of the first `budget` answers in a row are `waiting`. */
  function Leading(answers: nat -> Poll, waiting: Poll, budget: nat): (n: nat)
    ensures n <= budget && (forall k: nat :: k < n ==> answers(k) == waiting)
    ensures n < budget ==> answers(n) != waiting
  {
    if budget == 0 then 0
    else
      var n := Leading(answers, waiting, budget - 1);
      if n < budget - 1 then n else if answers(n) == waiting then n + 1 else n
  }

  /** The first refresh and the 20 retries all bring the same answer. */
  ghost predicate NeverPast(answers: nat -> Poll, waiting: Poll) {
    forall k: nat :: k < 21 ==> answers(k) == waiting
  }

  lemma LeadingIs(answers: nat -> Poll, waiting: Poll, n: nat)
    requires n <= MAX_RETRIES && (forall k: nat :: k < n ==> answers(k) == waiting) && answers(n) != waiting
    ensures Leading(answers, waiting, MAX_RETRIES + 1) == n
  {
  }

  /** An order at the server: the answers it gives before and after finalization, whether it
      accepts the request, and whether it hands out the certificate. */
  class Order {
    const before: nat -> Poll
    const after: nat -> Poll
    const accepts: bool
    const certificate: Option<string>

    /** Refreshes so far in each phase, and finalization requests so far. */
    var early: nat
    var late: nat
    var finalizations: nat

    constructor (before: nat -> Poll, after: nat -> Poll, accepts: bool, certificate: Option<string>)
      ensures this.before == before && this.after == after && this.accepts == accepts && this.certificate == certificate
      ensures early == 0 && late == 0 && finalizations == 0
    {
      this.before, this.after, this.accepts, this.certificate := before, after, accepts, certificate;
      early, late, finalizations := 0, 0, 0;
    }

    method Refresh() returns (p: Poll)
      modifies this`early, this`late
      ensures if finalizations == 0 then p == before(old(early)) && early == old(early) + 1 && late == old(late)
              else p == after(old(late)) && late == old(late) + 1 && early == old(early)
    {
      if finalizations == 0 {
        p := before(early);
        early := early + 1;
      } else {
        p := after(late);
        late := late + 1;
      }
    }

    /** `finalize_order`: the request is sent once, after the first answer that is not Pending,
        and never after a failure, Invalid, or 21 answers Pending. */
    method Finalize() returns (r: Result<(), PollError>)
      requires early == 0 && finalizations == 0
      modifies this
      ensures late == old(late)
      ensures var n := Leading(before, Shows(Pending), MAX_RETRIES + 1);
              if n > MAX_RETRIES then r == Err(StillPending) && early == MAX_RETRIES + 1 && finalizations == 0
              else if before(n) == Failed then r == Err(RefreshFailed) && early == n + 1 && finalizations == 0
              else if before(n) == Shows(Invalid) then r == Err(BecameInvalid) && early == n + 1 && finalizations == 0
              else r == (if accepts then Ok(()) else Err(FinalizeRefused)) && early == n + 1 && finalizations == 1
      ensures early <= 21
      ensures r == Err(StillPending) <==> NeverPast(before, Shows(Pending))
    {
      var retries: nat := MAX_RETRIES;
      while true
        invariant retries + early == MAX_RETRIES && finalizations == 0 && late == old(late)
        invariant forall k: nat :: k < early ==> before(k) == Shows(Pending)
        decreases retries
      {
        var p := Refresh();
        if p != Shows(Pending) {
          LeadingIs(before, Shows(Pending), early - 1);
        }
        if p == Failed {
          return Err(RefreshFailed);
        }
        match p.status {
          case Ready => break;
          case Pending =>
            if retries == 0 {
              return Err(StillPending);
            }
            retries := retries - 1;
          case Invalid =>
            return Err(BecameInvalid);
          case Processing => break;
          case Valid => break;
        }
      }
      finalizations := finalizations + 1;
      r := if accepts then Ok(()) else Err(FinalizeRefused);
    }

    /** `download_certificate`: a certificate only after a refresh that said Valid. */
    method Download() returns (r: Result<string, PollError>)
      requires late == 0 && finalizations > 0
      modifies this`early, this`late
      ensures early == old(early)
      ensures var n := Leading(after, Shows(Processing), MAX_RETRIES + 1);
              if n > MAX_RETRIES then r == Err(StillProcessing) && late == MAX_RETRIES + 1
              else late == n + 1 && r == match after(n)
                                         case Failed => Err(RefreshFailed)
                                         case Shows(s) =>
                                           if s != Valid then Err(Unexpected)
                                           else if certificate.Some? then Ok(certificate.value) else Err(NoCertificate)
      ensures late <= 21
      ensures r == Err(StillProcessing) <==> NeverPast(after, Shows(Processing))
    {
      var retries: nat := MAX_RETRIES;
      while true
        invariant retries + late == MAX_RETRIES && early == old(early)
        invariant forall k: nat :: k < late ==> after(k) == Shows(Processing)
        decreases retries
      {
        var p := Refresh();
        if p != Shows(Processing) {
          LeadingIs(after, Shows(Processing), late - 1);
        }
        if p == Failed {
          return Err(RefreshFailed);
        }
        if p.status == Valid {
          return if certificate.Some? then Ok(certificate.value) else Err(NoCertificate);
        } else if p.status == Processing {
          if retries == 0 {
            return Err(StillProcessing);
          }
          retries := retries - 1;
        } else {
          return Err(Unexpected);
        }
      }
    }

    /** The flow of src/renew.rs:250-254. A certificate comes back exactly when both phases go
        well; in any case each phase refreshes at most 21 times and the request is sent at most
        once. */
    method Complete() returns (r: Result<string, PollError>)
      requires early == 0 && late == 0 && finalizations == 0
      modifies this
      ensures early <= 21 && late <= 21 && finalizations <= 1
      ensures r.Ok? <==> FlowSucceeds(before, after, accepts, certificate)
      ensures r.Ok? ==>
                && certificate == Some(r.value) && finalizations == 1
                && late > 0 && after(late - 1) == Shows(Valid)
      ensures finalizations == 1 ==>
                && early > 0 && before(early - 1).Shows?
                && before(early - 1).status in {Ready, Processing, Valid}
    {
      hide Leading, NeverPast;
      var sent := Finalize();
      if sent.Err? {
        return Err(sent.error);
      }
      r := Download();
    }
  }

  /** When the flow ends with a certificate, for any two streams of answers. */
  predicate FlowSucceeds(before: nat -> Poll, after: nat -> Poll, accepts: bool, certificate: Option<string>) {
    var m := Leading(before, Shows(Pending), MAX_RETRIES + 1);
    var n := Leading(after, Shows(Processing), MAX_RETRIES + 1);
    && m <= MAX_RETRIES && before(m).Shows? && before(m).status != Invalid && accepts
    && n <= MAX_RETRIES && after(n) == Shows(Valid) && certificate.Some?
  }

  /** The state changes of section 7.1.6 of RFC 8555, with any number of them between polls;
      only a finalization request takes an order out of Ready toward Valid. */
  predicate MayFollow(s: Status, t: Status, finalized: bool) {
    match s
    case Pending => t == Pending || t == Ready || t == Invalid
    case Ready => t == Ready || t == Invalid || (finalized && (t == Processing || t == Valid))
    case Processing => t == Processing || t == Valid || t == Invalid
    case Valid => t == Valid
    case Invalid => t == Invalid
  }

  ghost predicate Conforms(answers: nat -> Poll, finalized: bool) {
    && (forall k: nat :: answers(k).Shows?)
    && forall k: nat :: MayFollow(answers(k).status, answers(k + 1).status, finalized)
  }

  /** Before finalization a conforming order is Pending until it is Ready or Invalid. */
  lemma {:induction false} EarlyStates(before: nat -> Poll, k: nat)
    requires Conforms(before, false) && before(0).status in {Pending, Ready}
    ensures before(k).status in {Pending, Ready, Invalid}
  {
    if k > 0 {
      EarlyStates(before, k - 1);
      assert MayFollow(before(k - 1).status, before(k - 1 + 1).status, false);
    }
  }

  lemma {:induction false} LateStates(after: nat -> Poll, k: nat)
    requires Conforms(after, true) && after(0).status in {Processing, Valid}
    ensures after(k).status in {Processing, Valid, Invalid}
  {
    if k > 0 {
      LateStates(after, k - 1);
      assert MayFollow(after(k - 1).status, after(k - 1 + 1).status, true);
    }
  }

  /** If the server follows the RFC, is Processing or Valid once finalized, never goes Invalid
      and is past Pending and past Processing within 20 polls each, the flow succeeds. */
  lemma ConformingServerSucceeds(before: nat -> Poll, after: nat -> Poll, accepts: bool, certificate: Option<string>,
                                 m: nat, n: nat)
    requires Conforms(before, false) && before(0).status in {Pending, Ready}
    requires Conforms(after, true) && after(0).status in {Processing, Valid}
    requires forall k: nat :: before(k).status != Invalid && after(k).status != Invalid
    requires m <= 20 && before(m).status != Pending && n <= 20 && after(n).status != Processing
    requires accepts && certificate.Some?
    ensures FlowSucceeds(before, after, accepts, certificate)
  {
    EarlyStates(before, Leading(before, Shows(Pending), MAX_RETRIES + 1));
    LateStates(after, Leading(after, Shows(Processing), MAX_RETRIES + 1));
  }
}
