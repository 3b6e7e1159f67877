/** The command results of api/core/framework_api.go: values that share one reply to the controller. */
module Results {

  datatype ApiError = AlreadyExists | Conflict | NotFound | OtherError(text: string)

  /** What the controller is told: to come back at once, or after a delay (in nanoseconds). */
  datatype Reply = Reply(requeue: bool, after: int)

  /** The reply object that every copy of a result points to. */
  class SharedReply {
    var value: Reply

    constructor ()
      ensures value == Reply(false, 0)
    {
      value := Reply(false, 0);
    }
  }

  datatype CommandResult = CommandResult(delete: bool, reply: SharedReply, errors: seq<ApiError>)

  predicate Retriable(e: ApiError) {
    e.AlreadyExists? || e.Conflict? || e.NotFound?
  }

  ghost predicate HasRetriable(errors: seq<ApiError>) {
    exists e :: e in errors && Retriable(e)
  }

  /** Whether the reply asks to come back. */
  predicate Again(reply: Reply) {
    reply.requeue || reply.after > 0
  }

  /** Whether a result with these errors is non-empty when the shared reply is this one. */
  predicate NotEmptyWith(errors: seq<ApiError>, reply: Reply) {
    errors != [] || Again(reply)
  }

  predicate NotEmpty(r: CommandResult)
    reads r.reply
  {
    NotEmptyWith(r.errors, r.reply.value)
  }

  /** What Fire leaves in the shared reply. */
  ghost function Fired(r: CommandResult, reply: Reply, delay: int): Reply {
    if HasRetriable(r.errors) then reply.(requeue := true)
    else if r.errors == [] && !r.delete && !reply.requeue && reply.after == 0 && delay > 0 then reply.(after := delay)
    else reply
  }

  /** The error Fire reports: none when some error is worth a retry, otherwise the first. */
  ghost function Reported(r: CommandResult): (e: seq<ApiError>) {
    if r.errors == [] || HasRetriable(r.errors) then [] else [r.errors[0]]
  }

  method Result() returns (r: CommandResult)
    ensures fresh(r.reply) && r.reply.value == Reply(false, 0) && !r.delete && r.errors == []
  {
    var reply := new SharedReply();
    r := CommandResult(false, reply, []);
  }

  /** The errors that are not nil are added to the returned copy only. */
  method Error(r: CommandResult, errs: seq<ApiError>) returns (s: CommandResult)
    ensures s == r.(errors := r.errors + errs)
  {
    s := r;
    for i := 0 to |errs|
      invariant s == r.(errors := r.errors + errs[..i])
    {
      s := s.(errors := s.errors + [errs[i]]);
    }
  }

  /** The result of an apply: one that ends the run of the plan exactly when the call failed. */
  method Applied(errs: seq<ApiError>) returns (r: CommandResult)
    ensures fresh(r.reply) && (NotEmpty(r) <==> errs != []) && (errs != [] ==> r.errors == errs)
  {
    r := Result();
    r := Error(r, errs);
  }

  /** The errors of the argument are lost: the copy that Error returns is dropped. */
  method Merge(r: CommandResult, other: CommandResult) returns (s: CommandResult)
    ensures s.errors == r.errors && s.delete == r.delete
    ensures s.reply == if !NotEmpty(r) || NotEmpty(other) then other.reply else r.reply
  {
    var dropped := Error(r, other.errors);
    s := r;
    if !NotEmpty(r) || NotEmpty(other) {
      s := s.(reply := other.reply);
    }
  }

  method Fire(r: CommandResult, delay: int) returns (out: Reply, error: seq<ApiError>)
    modifies r.reply
    ensures r.reply.value == out == Fired(r, old(r.reply.value), delay) && error == Reported(r)
  {
    if |r.errors| > 0 {
      for i := 0 to |r.errors|
        invariant forall j :: 0 <= j < i ==> !Retriable(r.errors[j])
        invariant r.reply.value == old(r.reply.value)
      {
        if Retriable(r.errors[i]) {
          assert r.errors[i] in r.errors;
          r.reply.value := r.reply.value.(requeue := true);
          return r.reply.value, [];
        }
      }
      return r.reply.value, [r.errors[0]];
    }
    if !r.delete && !r.reply.value.requeue && r.reply.value.after == 0 && delay > 0 {
      r.reply.value := r.reply.value.(after := delay);
    }
    return r.reply.value, [];
  }

  method Get(r: CommandResult) returns (out: Reply, error: seq<ApiError>)
    modifies r.reply
    ensures r.reply.value == out == Fired(r, old(r.reply.value), 0) && error == Reported(r)
    ensures error != [] || Again(out) <==> old(NotEmpty(r))
    ensures NotEmpty(r) == old(NotEmpty(r))
  {
    AnswerIff(r, r.reply.value);
    out, error := Fire(r, 0);
  }

  // ----- what the answers mean -----

  /** A result is non-empty exactly when it has errors or its reply asks for a requeue or a positive
      delay; that is, exactly when Get answers with an error, a requeue or a delay; and Get leaves it
      so, however often it is called. */
  lemma AnswerIff(r: CommandResult, reply: Reply)
    ensures NotEmptyWith(r.errors, reply) <==> r.errors != [] || reply.requeue || reply.after > 0
    ensures var out := Fired(r, reply, 0);
      && (NotEmptyWith(r.errors, reply) <==> Reported(r) != [] || out.requeue || out.after > 0)
      && (NotEmptyWith(r.errors, out) <==> NotEmptyWith(r.errors, reply))
      && Fired(r, out, 0) == out
  {
  }

  /** Printing one copy changes whether another copy that shares its reply is empty exactly when the
      printed one carries an error worth a retry and the other one was empty. */
  lemma CopyChangesIff(printed: CommandResult, other: CommandResult, reply: Reply)
    ensures (NotEmptyWith(other.errors, Fired(printed, reply, 0)) != NotEmptyWith(other.errors, reply)) <==>
      HasRetriable(printed.errors) && !NotEmptyWith(other.errors, reply)
  {
  }

  /** Errors stay unreported exactly when one of them says that the object exists already, conflicts or
      is missing; then the reply asks to come back at once. */
  lemma RetryIff(r: CommandResult, reply: Reply, delay: int)
    ensures r.errors != [] && Reported(r) == [] <==>
      AlreadyExists in r.errors || Conflict in r.errors || NotFound in r.errors
    ensures r.errors != [] && Reported(r) == [] ==> Fired(r, reply, delay) == Reply(true, reply.after)
    ensures Reported(r) != [] ==> Reported(r) == [r.errors[0]] && Fired(r, reply, delay) == reply
  {
    forall e | e in r.errors && Retriable(e) ensures e == AlreadyExists || e == Conflict || e == NotFound {}
  }

  /** Without errors a default delay is used exactly when nothing else was asked for and nothing was
      deleted. */
  lemma DelayIff(r: CommandResult, reply: Reply, delay: int)
    requires r.errors == [] && delay > 0
    ensures Fired(r, reply, delay) ==
      if !r.delete && reply == Reply(false, 0) then Reply(false, delay) else reply
  {
  }
}
