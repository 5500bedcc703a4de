/**
 * The trigger engine the scheduler drives (Quartz), seen only through the calls the scheduler
 * makes. Its behaviour is not part of the repository, so what follows is an explicit assumption
 * about it, not a fact shown by the scheduler's code:
 *   - querying an id the engine does not know gives the state None;
 *   - scheduling or rescheduling installs a fresh trigger in the state Normal that has never fired;
 *   - pausing makes an existing trigger Paused, resuming makes a Paused trigger Normal;
 *   - adding a job detail with replacement allowed stores it under the job's id, replacing any other;
 *   - deleting a job removes its trigger and its job detail;
 *   - firing a job now fails when the engine holds no job detail under its id.
 * Firing, cron evaluation and fire-time computation happen inside the engine and are not modelled:
 * the next fire time of a fresh trigger is a parameter.
 */
module TriggerEngine {
  import opened Wrappers

  /** Trigger.STATE_NONE, STATE_NORMAL, STATE_PAUSED, STATE_COMPLETE, STATE_ERROR, STATE_BLOCKED. */
  datatype TriggerState = StateNone | StateNormal | StatePaused | StateComplete | StateError | StateBlocked

  /** The states a stored trigger can be in: None is what the engine reports for an absent one. */
  type StoredState = s: TriggerState | s != StateNone witness StateNormal

  /** A trigger held by the engine, under the job's unique id. */
  datatype Trigger = Trigger(
    state: StoredState,
    cron: string,
    previousFireTime: Option<int>,
    nextFireTime: Option<int>)

  type Triggers = map<string, Trigger>

  /** getTriggerState: the state of the trigger registered under `id`, None when there is none. */
  function StateOf(t: Triggers, id: string): (s: TriggerState)
    ensures s == StateNone <==> id !in t
  {
    if id in t then t[id].state else StateNone
  }

  /** scheduleJob / rescheduleJob: a fresh cron trigger under `id`, not fired yet. */
  function Install(t: Triggers, id: string, cron: string, next: Option<int>): (r: Triggers)
    ensures StateOf(r, id) == StateNormal && r[id].previousFireTime.None?
    ensures r[id].cron == cron && r[id].nextFireTime == next
    ensures r - {id} == t - {id}
  {
    t[id := Trigger(StateNormal, cron, None, next)]
  }

  /** pauseJob: an existing trigger becomes Paused; an absent one stays absent. */
  function PauseAt(t: Triggers, id: string): (r: Triggers)
    ensures StateOf(r, id) == if id in t then StatePaused else StateNone
    ensures r - {id} == t - {id}
    ensures id in t ==> r[id] == t[id].(state := StatePaused)
  {
    if id in t then t[id := t[id].(state := StatePaused)] else t
  }

  /** resumeJob: a Paused trigger becomes Normal; any other is left as it is. */
  function ResumeAt(t: Triggers, id: string): (r: Triggers)
    ensures StateOf(r, id) == if StateOf(t, id) == StatePaused then StateNormal else StateOf(t, id)
    ensures r - {id} == t - {id}
    ensures id in t ==> r[id].cron == t[id].cron && r[id].nextFireTime == t[id].nextFireTime
  {
    if id in t && t[id].state == StatePaused then t[id := t[id].(state := StateNormal)] else t
  }

  /** Resuming a job that was Normal when paused gives back exactly the engine it was paused from. */
  lemma ResumeUndoesPause(t: Triggers, id: string)
    requires StateOf(t, id) == StateNormal
    ensures ResumeAt(PauseAt(t, id), id) == t
  {
    var p := PauseAt(t, id);
    assert p[id].state == StatePaused;
    assert ResumeAt(p, id)[id] == t[id];
    assert forall k :: k in t <==> k in ResumeAt(p, id);
  }

  /** Pausing twice is pausing once. */
  lemma PauseIdempotent(t: Triggers, id: string)
    ensures PauseAt(PauseAt(t, id), id) == PauseAt(t, id)
  {
  }
}
