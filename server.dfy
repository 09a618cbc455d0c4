/** The backend's database bootstrap and request gate: a bounded retry loop
    around the database connection, the per-request connection check, the
    health status and the error handler's message redaction. */
module Server {
  import opened Js

  /** `maxRetries`. */
  const MaxRetries: nat := 3

  /** The ready state of a connected database. */
  const ConnectedState: int := 1

  const MissingUriMessage: string := "ATLAS_URI environment variable is not defined"
  const RedactedMessage: string := "Please try again later"

  /** What one `mongoose.connect` call does: connect, or throw with a message. */
  datatype Attempt = Connects | Fails(message: string)

  /** How `connectDB` ends: it returns, or it rethrows the last error. */
  datatype Outcome = Connected | Rethrown(message: string)

  /** Some call among the first `n` connects. */
  predicate SomeCallConnects(connect: nat -> Attempt, n: nat) {
    exists i :: 0 <= i < n && connect(i).Connects?
  }

  /** `connectDB`: up to three attempts. An attempt fails at once when the
      connection string is missing (falsy) and otherwise makes the next
      `connect` call; `connect(k)` is what the k-th call does. A failure
      counts; the third failure rethrows its error, and between attempts the
      loop waits once. `failures` is the source's `attempts` counter. */
  method ConnectDB(atlasUri: Option<string>, connect: nat -> Attempt)
    returns (outcome: Outcome, failures: nat, connectCalls: nat, waits: nat)
    ensures failures + (if outcome.Connected? then 1 else 0) <= MaxRetries
    ensures connectCalls == if TruthyOpt(atlasUri) then failures + (if outcome.Connected? then 1 else 0) else 0
    ensures outcome.Connected? ==>
      TruthyOpt(atlasUri) && connect(failures).Connects? &&
      forall i :: 0 <= i < failures ==> connect(i).Fails?
    ensures outcome.Connected? <==> TruthyOpt(atlasUri) && SomeCallConnects(connect, MaxRetries)
    ensures outcome.Rethrown? ==> failures == MaxRetries && waits == MaxRetries - 1
    ensures outcome.Rethrown? ==>
      outcome.message == if TruthyOpt(atlasUri) then connect(MaxRetries - 1).message else MissingUriMessage
    ensures outcome.Connected? ==> waits == failures
  {
    failures, connectCalls, waits := 0, 0, 0;
    var result: Option<Outcome> := None;
    while failures < MaxRetries && result.None?
      invariant 0 <= failures <= MaxRetries
      invariant result.None? ==> waits == failures && failures < MaxRetries
      invariant connectCalls == if TruthyOpt(atlasUri) then failures + (if result == Some(Connected) then 1 else 0) else 0
      invariant forall i :: 0 <= i < failures ==> TruthyOpt(atlasUri) ==> connect(i).Fails?
      invariant result == Some(Connected) ==>
        TruthyOpt(atlasUri) && failures < MaxRetries && connect(failures).Connects? && waits == failures
      invariant result.Some? && result.value.Rethrown? ==>
        failures == MaxRetries && waits == MaxRetries - 1 &&
        result.value.message == if TruthyOpt(atlasUri) then connect(MaxRetries - 1).message else MissingUriMessage
      decreases MaxRetries - failures, if result.None? then 1 else 0
    {
      var error: string;
      if !TruthyOpt(atlasUri) {
        error := MissingUriMessage;
      } else {
        var attempt := connect(connectCalls);
        connectCalls := connectCalls + 1;
        if attempt.Connects? {
          result := Some(Connected);
          continue;
        }
        error := attempt.message;
      }
      failures := failures + 1;
      if failures >= MaxRetries {
        result := Some(Rethrown(error));
      } else {
        waits := waits + 1;
      }
    }
    outcome := result.value;
  }

  /** The reply the request gate can send itself. */
  datatype Reply = Reply(status: nat, error: string, message: string)

  /** What happens to a request: handed to the application, or answered
      by the gate. */
  datatype Gate = ToApp | Answered(reply: Reply)

  /** `handler`: connect first unless the ready state is 1; a failed
      connection is answered with 500 and the app never sees the request. */
  method Handler(readyState: int, atlasUri: Option<string>, connect: nat -> Attempt)
    returns (gate: Gate, connectCalled: bool)
    ensures connectCalled <==> readyState != ConnectedState
    ensures readyState == ConnectedState ==> gate == ToApp
    ensures gate.Answered? ==> gate.reply == Reply(500, "Database connection failed", RedactedMessage)
    ensures readyState != ConnectedState ==>
      (gate == ToApp <==> TruthyOpt(atlasUri) && SomeCallConnects(connect, MaxRetries))
  {
    connectCalled := readyState != ConnectedState;
    if connectCalled {
      var outcome, _, _, _ := ConnectDB(atlasUri, connect);
      if outcome.Rethrown? {
        return Answered(Reply(500, "Database connection failed", RedactedMessage)), connectCalled;
      }
    }
    gate := ToApp;
  }

  /** The `dbStatus` field of `/` and `/api/health`. */
  function DbStatus(readyState: int): (s: string)
    ensures s == "Connected" <==> readyState == ConnectedState
    ensures s == "Connected" || s == "Disconnected"
  {
    if readyState == ConnectedState then "Connected" else "Disconnected"
  }

  /** `process.env.NODE_ENV || 'development'`. */
  function NodeEnv(raw: Option<string>): (env: string)
    ensures Truthy(env)
    ensures TruthyOpt(raw) ==> env == raw.value
    ensures !TruthyOpt(raw) ==> env == "development"
  {
    if TruthyOpt(raw) then raw.value else "development"
  }

  /** The error handler: always 500; in production the error's own message
      is replaced by a fixed one. */
  function ErrorReply(nodeEnv: string, errorMessage: string): (r: Reply)
    ensures r.status == 500 && r.error == "Internal server error"
    ensures nodeEnv == "production" ==> r.message == RedactedMessage
    ensures nodeEnv != "production" ==> r.message == errorMessage
  {
    Reply(500, "Internal server error", if nodeEnv == "production" then RedactedMessage else errorMessage)
  }

  /** Without an environment setting the error text is shown, never hidden. */
  lemma UnsetEnvironmentShowsErrors(errorMessage: string)
    ensures ErrorReply(NodeEnv(None), errorMessage).message == errorMessage
  {
  }
}
