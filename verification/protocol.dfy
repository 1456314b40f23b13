/** The wire format shared with the job workers: the field names of a job
    payload and the keys of the backend store. */
module Protocol {

  const ClassName := "class"
  const ScheduleAt := "at"
  const QueueField := "queue"
  const Args := "args"
  const JobId := "jid"
  const Created := "created_at"
  const Enqueued := "enqueued_at"

  /** The backend set holding every known queue name. */
  const QueuesName := "queues"

  /** The literal part of the list-key template `queue:{}`. */
  const QueuePrefix := "queue:"

  /** Every payload field, in declaration order. */
  const PayloadFields: seq<string> := [ClassName, ScheduleAt, QueueField, Args, JobId, Created, Enqueued]

  /** The fields a queue writes when it builds a payload. */
  const QueueWrittenFields: set<string> := {ClassName, ScheduleAt, Args, Created, QueueField}

  /** The key of the backend list holding the entries of queue `name`:
      the template with `name` substituted for its placeholder. */
  function QueueKey(name: string): (key: string)
    ensures |key| == |QueuePrefix| + |name|
    ensures key[..|QueuePrefix|] == QueuePrefix
    ensures key[|QueuePrefix|..] == name
  {
    QueuePrefix + name
  }

  /** The seven payload field names are pairwise distinct, so every
      assignment to a payload writes a key of its own. */
  lemma FieldsDistinct()
    ensures |PayloadFields| == 7
    ensures forall i, j :: 0 <= i < j < |PayloadFields| ==> PayloadFields[i] != PayloadFields[j]
  {
  }

  /** Distinct queue names have distinct list keys. */
  lemma QueueKeyInjective(a: string, b: string)
    ensures QueueKey(a) == QueueKey(b) <==> a == b
  {
    if QueueKey(a) == QueueKey(b) {
      calc {
        a;
        QueueKey(a)[|QueuePrefix|..];
        QueueKey(b)[|QueuePrefix|..];
        b;
      }
    }
  }

  /** The registry set and the per-queue lists never share a key. */
  lemma RegistryIsNoQueueKey(name: string)
    ensures QueueKey(name) != QueuesName
  {
    var key := QueueKey(name);
    if |key| == |QueuesName| {
      assert key[5] == QueuePrefix[5] == ':';
      assert QueuesName[5] == 's';
    }
  }

  /** The fields the dispatcher and the connector add later are not among the
      fields a queue writes, so adding them never overwrites one. */
  lemma LateFieldsAreFresh()
    ensures JobId !in QueueWrittenFields
    ensures Enqueued !in QueueWrittenFields
    ensures JobId != Enqueued
    ensures |QueueWrittenFields| == 5
  {
  }

  /** The default list key of queue `low`. */
  lemma QueueKeyExample()
    ensures QueueKey("low") == "queue:low"
  {
  }
}
