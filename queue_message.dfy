/**
 * The credit request carried by a queue message and its status trail
 * (CreditEngineWorker/Models/QueueMessage.cs).
 */
module QueueMessages {
  import opened Wrappers

  /** A `DateTime` reading. Only equality between readings matters to the model. */
  datatype Instant = Instant(ticks: int)

  /** `default(DateTime)`: the value of a timestamp nobody assigned. */
  const MinValue := Instant(0)

  /** The `TaskStatusId` values the worker writes into the trail. */
  const Started: int := 2
  const Failed: int := 3
  const Completed: int := 4

  /** One event of the status trail (`CreditEngineStatus`). */
  datatype StatusEntry = StatusEntry(
    data: Instant,
    message: Option<string>,
    taskStatusId: int,
    taskCreditEngineSenderId: int,
    id: int,
    createdAt: Instant,
    updatedAt: Instant,
    status: bool)

  /**
   * The three-argument constructor: the message, the status id and the sender id
   * are stored as given, the entry is active, its own `Id` keeps the default 0, and
   * its three timestamps are the construction instant `now`.
   */
  function NewStatusEntry(message: Option<string>, taskStatusId: int, senderId: int, now: Instant): (e: StatusEntry)
    ensures e.message == message && e.taskStatusId == taskStatusId && e.taskCreditEngineSenderId == senderId
    ensures e.status && e.id == 0
    ensures e.data == now && e.createdAt == now && e.updatedAt == now
  {
    StatusEntry(now, message, taskStatusId, senderId, 0, now, now, true)
  }

  /** How many entries of `trail` carry the status id `code`. */
  function CountStatus(trail: seq<StatusEntry>, code: int): (n: nat)
    ensures n <= |trail|
    ensures n == 0 <== forall i :: 0 <= i < |trail| ==> trail[i].taskStatusId != code
  {
    if trail == [] then 0
    else CountStatus(trail[..|trail| - 1], code) + (if trail[|trail| - 1].taskStatusId == code then 1 else 0)
  }

  /** Counting distributes over appending one trail to another. */
  lemma {:induction false} CountStatusAppend(a: seq<StatusEntry>, b: seq<StatusEntry>, code: int)
    ensures CountStatus(a + b, code) == CountStatus(a, code) + CountStatus(b, code)
  {
    if b != [] {
      var b' := b[..|b| - 1];
      assert (a + b)[..|a + b| - 1] == a + b';
      CountStatusAppend(a, b', code);
    } else {
      assert a + b == a;
    }
  }

  /**
   * The value of every property of a `QueueMessage`. `creditEngineStatus` is `None`
   * when a message's JSON carried an explicit `null` for the list.
   */
  datatype RequestView = RequestView(
    creditPolicyId: Option<int>,
    creditPolicyPfId: Option<int>,
    analysisRequestId: Option<int>,
    creditPolicyRuleId: Option<int>,
    analysisRequestName: Option<string>,
    userId: Option<int>,
    userGroupId: Option<int>,
    taskStartedAt: Option<Instant>,
    taskFinishedAt: Option<Instant>,
    creditEngineStatus: Option<seq<StatusEntry>>,
    id: int,
    createdAt: Instant,
    updatedAt: Instant,
    status: bool)

  /** The properties of `new QueueMessage()`: every nullable id absent, an empty name and an empty trail. */
  const NewRequest := RequestView(None, None, None, None, Some(""), None, None, None, None, Some([]), 0, MinValue, MinValue, false)

  /** A credit request whose trail and finish time are updated in place. */
  class QueueMessage {
    var creditPolicyId: Option<int>
    var creditPolicyPfId: Option<int>
    var analysisRequestId: Option<int>
    var creditPolicyRuleId: Option<int>
    var analysisRequestName: Option<string>
    var userId: Option<int>
    var userGroupId: Option<int>
    var taskStartedAt: Option<Instant>
    var taskFinishedAt: Option<Instant>
    var creditEngineStatus: Option<seq<StatusEntry>>
    var id: int
    var createdAt: Instant
    var updatedAt: Instant
    var status: bool

    /** The current value of all properties. */
    function View(): RequestView
      reads this
    {
      RequestView(creditPolicyId, creditPolicyPfId, analysisRequestId, creditPolicyRuleId, analysisRequestName,
                  userId, userGroupId, taskStartedAt, taskFinishedAt, creditEngineStatus, id, createdAt, updatedAt, status)
    }

    /** `new QueueMessage()`: empty trail, empty name, no optional id. */
    constructor ()
      ensures View() == NewRequest
      ensures creditEngineStatus == Some([]) && analysisRequestName == Some("")
    {
      creditPolicyId, creditPolicyPfId, analysisRequestId, creditPolicyRuleId := None, None, None, None;
      analysisRequestName := Some("");
      userId, userGroupId := None, None;
      taskStartedAt, taskFinishedAt := None, None;
      creditEngineStatus := Some([]);
      id, createdAt, updatedAt, status := 0, MinValue, MinValue, false;
    }

    /** A message whose properties were filled in by a JSON deserializer. */
    constructor FromView(v: RequestView)
      ensures View() == v
    {
      creditPolicyId, creditPolicyPfId, analysisRequestId, creditPolicyRuleId := v.creditPolicyId, v.creditPolicyPfId, v.analysisRequestId, v.creditPolicyRuleId;
      analysisRequestName := v.analysisRequestName;
      userId, userGroupId := v.userId, v.userGroupId;
      taskStartedAt, taskFinishedAt := v.taskStartedAt, v.taskFinishedAt;
      creditEngineStatus := v.creditEngineStatus;
      id, createdAt, updatedAt, status := v.id, v.createdAt, v.updatedAt, v.status;
    }

    /**
     * `CreditEngineStatus.Add(entry)`: the entry goes at the end of the trail and
     * nothing else changes. On a null list the call throws (`ok` is false) and
     * nothing changes at all.
     */
    method AddStatus(entry: StatusEntry) returns (ok: bool)
      modifies this
      ensures ok == old(creditEngineStatus).Some?
      ensures ok ==> View() == old(View()).(creditEngineStatus := Some(old(creditEngineStatus).value + [entry]))
      ensures !ok ==> View() == old(View())
    {
      ok := creditEngineStatus.Some?;
      if ok {
        creditEngineStatus := Some(creditEngineStatus.value + [entry]);
      }
    }
  }
}
