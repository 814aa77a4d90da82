/** What the worker publishes: a channel and the JSON value sent on it. */
module Messages {
  import opened Keys

  datatype Json = Null | Num(n: int) | Str(s: string)

  /** A message body as its receiver sees it after `JSON.parse`. */
  datatype Body = Malformed | NotAnObject | Object(fields: map<string, Json>)

  datatype Message = Message(channel: string, body: Body)

  function Channel(event: string, jobId: Id): string {
    "job:" + event + ":" + jobId
  }

  function ProgressMessage(jobId: Id, progress: int): Message {
    Message(Channel("progress", jobId), Object(map["progress" := Num(progress), "status" := Str("active")]))
  }

  function CompletedMessage(jobId: Id, outputFileId: Id): Message {
    Message(Channel("completed", jobId), Object(map["outputFileId" := Str(outputFileId)]))
  }

  function FailedMessage(jobId: Id, error: string): Message {
    Message(Channel("failed", jobId), Object(map["error" := Str(error)]))
  }

  /** `m` announces a failure of the job. */
  predicate IsFailure(m: Message, jobId: Id) {
    && m.body.Object? && "error" in m.body.fields && m.body.fields["error"].Str?
    && m == FailedMessage(jobId, m.body.fields["error"].s)
  }
}
