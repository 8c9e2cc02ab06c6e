/** How the pieces fit together: the create dialog's payload flowing into
    the dashboard's list, the dashboard's counts flowing into the gauge of
    the right-hand panel, and the registration form's checks set against
    the server's validators. */
module Flows {
  import opened Common
  import Dashboard
  import Rightbar
  import TaskModal
  import Register
  import UserModel

  /** The keys the dialog's payload brings into a new task; it has no `id`. */
  function AsPatch(p: TaskModal.TaskPayload): Dashboard.TaskPatch {
    Dashboard.TaskPatch(None, Some(p.completed), Some(p.when), Some(p.title), Some(p.desc), Some(p.priority))
  }

  /** A task created from the dialog goes to the front with the new id and
      the trimmed title, the earlier tasks follow unchanged, and the number
      of completed tasks grows by one exactly when "yes" was selected. */
  lemma {:induction false} DialogCreate(prev: seq<Dashboard.Task>, newId: Dashboard.TaskId,
                                        form: TaskModal.TaskForm, toDateString: string -> string)
    ensures var r := Dashboard.Created(prev, newId, AsPatch(TaskModal.PayloadOf(form, toDateString)));
      && r[0].id == newId
      && r[0].title == Some(Trim(JavaScript, form.title))
      && r[1..] == prev
      && Dashboard.CountCompleted(r)
         == Dashboard.CountCompleted(prev) + (if form.completed == "yes" then 1 else 0)
  {
    var r := Dashboard.Created(prev, newId, AsPatch(TaskModal.PayloadOf(form, toDateString)));
    assert r[0].completed <==> form.completed == "yes";
    assert r != [] && r[1..] == prev;
  }

  /** A new task keeps the ids unique when its id is fresh. */
  lemma DialogCreateKeepsIdsUnique(prev: seq<Dashboard.Task>, newId: Dashboard.TaskId,
                                   form: TaskModal.TaskForm, toDateString: string -> string)
    requires Dashboard.UniqueIds(prev) && !Dashboard.HasId(prev, newId)
    ensures Dashboard.UniqueIds(Dashboard.Created(prev, newId, AsPatch(TaskModal.PayloadOf(form, toDateString))))
  {
    Dashboard.CreateKeepsIdsUnique(prev, newId, AsPatch(TaskModal.PayloadOf(form, toDateString)));
  }

  /** The gauge the dashboard shows, from its counts. */
  function Gauge(tasks: seq<Dashboard.Task>): int {
    Rightbar.CompletedPct(Dashboard.StatsOf(tasks).completed, Dashboard.StatsOf(tasks).total)
  }

  /** Whatever the list holds, the gauge is within 0..100. */
  lemma GaugeInRange(tasks: seq<Dashboard.Task>)
    ensures 0 <= Gauge(tasks) <= 100
  {
    Rightbar.PctInRange(Dashboard.StatsOf(tasks).completed, Dashboard.StatsOf(tasks).total);
  }

  /** Marking an open task completed never lowers the gauge; marking a
      completed task open never raises it. */
  lemma ToggleMovesGauge(prev: seq<Dashboard.Task>, k: nat)
    requires k < |prev| && Dashboard.UniqueIds(prev)
    ensures !prev[k].completed ==> Gauge(prev) <= Gauge(Dashboard.Toggled(prev, prev[k].id))
    ensures prev[k].completed ==> Gauge(Dashboard.Toggled(prev, prev[k].id)) <= Gauge(prev)
  {
    var r := Dashboard.Toggled(prev, prev[k].id);
    Dashboard.ToggleStats(prev, k);
    if prev[k].completed {
      Rightbar.PctMonotone(Dashboard.CountCompleted(r), Dashboard.CountCompleted(prev), |prev|);
    } else {
      Rightbar.PctMonotone(Dashboard.CountCompleted(prev), Dashboard.CountCompleted(r), |prev|);
    }
  }

  /** A password the registration page accepts is accepted by the server
      too unless it is longer than 128 characters; then the server rejects
      it as too long. */
  lemma {:induction false} PasswordChecksAgree(form: Register.RegisterForm)
    requires Register.RegisterCheck(form).None?
    ensures UserModel.ValidatePassword(form.password).0 <==> |form.password| <= 128
    ensures |form.password| > 128 ==> UserModel.ValidatePassword(form.password).1 == UserModel.PasswordTooLong
  {
  }

  /** A one-letter name passes the page's check but not the server's,
      which wants at least two characters after stripping. */
  lemma {:induction false} OneLetterName(c: char, email: string, password: string)
    requires !IsSpace(JavaScript, c) && !IsSpace(Python, c)
    requires Trim(JavaScript, email) != "" && |password| >= 6
    ensures Register.RegisterCheck(Register.RegisterForm([c], email, password)).None?
    ensures !UserModel.ValidateName([c]).0
  {
    TrimKeeps(JavaScript, [c]);
    TrimKeeps(Python, [c]);
  }
}
