/** The outer loop of `main`: one pass over the vehicles, deciding for each
    whether to start a charging session, and stopping where the process ends. */
module Scheduler {
  import opened Api
  import opened Sessions

  /** What a pass does with one vehicle after refreshing it: skip it, start a
      session with it, or stop the process, since an APIError raised here is
      not caught. */
  datatype Verdict = Skip | StartSession | Abort

  function Triage(reply: Reply<VehicleData>): (v: Verdict)
    ensures v == Abort <==> reply.ApiError?
  {
    match reply
    case ApiError => Abort
    case Ok(Asleep) => Skip
    case Ok(Awake(cs)) =>
      if cs.chargingState == Disconnected || cs.chargingState == Complete then Skip else StartSession
  }

  /** A session is started exactly for an awake vehicle that is neither
      disconnected nor complete; an asleep vehicle is skipped without a wake. */
  lemma TriageStartsOnlyPluggedIn(reply: Reply<VehicleData>)
    ensures Triage(reply) == StartSession <==>
      reply.Ok? && reply.value.Awake?
      && reply.value.charge.chargingState != Disconnected
      && reply.value.charge.chargingState != Complete
    ensures Triage(reply) == Skip <==>
      reply.Ok? && (reply.value.Asleep?
                    || reply.value.charge.chargingState == Disconnected
                    || reply.value.charge.chargingState == Complete)
  {
  }

  /** A session hands control back to the pass only when it ends by its own
      rule or after too many errors. `exit()` and a division by a zero voltage
      end the process, and a session still running has not returned. */
  predicate Returns(s: Supervision)
  {
    s == Ended(SessionCompleted) || s == Ended(TooManyErrors)
  }

  /** The pass goes no further than this vehicle: its refresh raised an
      APIError, or the session started with it never returned. */
  predicate HaltsAt(reply: Reply<VehicleData>, end: Supervision)
  {
    Triage(reply) == Abort || (Triage(reply) == StartSession && !Returns(end))
  }

  /** One pass over the vehicles whose refreshes answer `replies`, in order;
      `ends[i]` is how the session started with vehicle i would end (the
      status `Session.Start` returns). `sessions` lists, in order, the vehicles
      a session is started for; `halt` is the vehicle at which the process
      ended, if it did. */
  method PlanPass(replies: seq<Reply<VehicleData>>, ends: seq<Supervision>) returns (sessions: seq<nat>, halt: Option<nat>)
    requires |ends| == |replies|
    ensures halt.None? <==> forall i :: 0 <= i < |replies| ==> !HaltsAt(replies[i], ends[i])
    ensures halt.Some? ==>
      && halt.value < |replies| && HaltsAt(replies[halt.value], ends[halt.value])
      && forall j :: 0 <= j < halt.value ==> !HaltsAt(replies[j], ends[j])
    ensures forall i :: 0 <= i < |replies| ==>
      (i in sessions <==> Triage(replies[i]) == StartSession && forall j :: 0 <= j < i ==> !HaltsAt(replies[j], ends[j]))
    ensures forall k :: 0 <= k < |sessions| ==> sessions[k] < |replies|
    ensures forall k, l :: 0 <= k < l < |sessions| ==> sessions[k] < sessions[l]
  {
    sessions := [];
    halt := None;
    var i := 0;
    while i < |replies|
      invariant 0 <= i <= |replies| && halt.None?
      invariant forall j :: 0 <= j < i ==> !HaltsAt(replies[j], ends[j])
      invariant forall k :: 0 <= k < |sessions| ==> sessions[k] < i
      invariant forall k, l :: 0 <= k < l < |sessions| ==> sessions[k] < sessions[l]
      invariant forall j :: 0 <= j < i ==> (j in sessions <==> Triage(replies[j]) == StartSession)
    {
      match Triage(replies[i]) {
        case Abort =>
          halt := Some(i);
        case Skip =>
        case StartSession =>
          sessions := sessions + [i];
          if !Returns(ends[i]) {
            halt := Some(i);
          }
      }
      if halt.Some? {
        forall j | i < j < |replies| ensures j !in sessions {
        }
        return;
      }
      i := i + 1;
    }
  }
}
