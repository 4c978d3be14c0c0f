/** The director's utilities: its own command runner, and the status session
    a worker holds while a job runs, which reports "processing" when opened
    and the final state and info when closed. */
module Director {
  import opened Wrappers
  import opened Process

  // ---------------------------------------------------------------------
  // run_command
  // ---------------------------------------------------------------------

  /** The environment the command runs in: a supplied one as it is, the
      ambient one only when none is supplied. */
  function LaunchEnv(ambient: Env, env: Option<Env>): (e: Env)
    ensures env.Some? ==> e == env.value
    ensures env.None? ==> e == ambient
  {
    env.GetOr(ambient)
  }

  /** `run_command`: spawns `command` with standard error captured and
      standard output captured only in debug mode (otherwise it goes to the
      null device and reads back as None). Gives the error text and False
      when the return code is not accepted, else the output and True. */
  function RunCommand(
    spawn: Invocation -> Outcome,
    ambient: Env,
    command: string,
    debug: bool := false,
    shell: bool := true,
    env: Option<Env> := None,
    execute: string := "/bin/bash",
    returnCodes: Option<seq<int>> := None): (r: (Option<string>, bool))
    ensures var o := spawn(Invocation(command, shell, LaunchEnv(ambient, env), execute, debug));
      var accepted := if returnCodes.None? then o.returnCode == 0 else o.returnCode in returnCodes.value;
      && (r.1 <==> accepted)
      && (!r.1 ==> r.0 == Some(o.error))
      && (r.1 && debug ==> r.0 == Some(o.output))
      && (r.1 && !debug ==> r.0 == None)
  {
    var o := spawn(Invocation(command, shell, LaunchEnv(ambient, env), execute, debug));
    var codes := returnCodes.GetOr([0]);
    if o.returnCode !in codes then (Some(o.error), false)
    else (if debug then Some(o.output) else None, true)
  }

  // ---------------------------------------------------------------------
  // ClientStatus
  // ---------------------------------------------------------------------

  type Bytes = seq<bv8>

  /** The message constants the session uses: the "not known" placeholder
      and the "processing" marker. */
  datatype Context = Context(nullbyte: Bytes, jobProcessing: Bytes)

  /** The channel to the dispatcher, as the log of multipart messages sent on it. */
  class Socket {
    var sent: seq<seq<Bytes>>

    constructor ()
      ensures sent == []
    {
      sent := [];
    }

    method SendMultipart(frames: seq<Bytes>)
      modifies this
      ensures sent == old(sent) + [frames]
    {
      sent := sent + [frames];
    }
  }

  /** The status session of one job. */
  class ClientStatus {
    const socket: Socket
    const jobId: Bytes
    const ctx: Context
    var jobState: Bytes
    var info: Bytes

    /** Opening the session announces that the job is being processed. */
    constructor (socket: Socket, jobId: Bytes, ctx: Context)
      modifies socket
      ensures this.socket == socket && this.jobId == jobId && this.ctx == ctx
      ensures jobState == ctx.nullbyte && info == ctx.nullbyte
      ensures socket.sent == old(socket.sent) + [[jobId, ctx.jobProcessing, ctx.nullbyte]]
    {
      this.ctx := ctx;
      this.jobId := jobId;
      jobState := ctx.nullbyte;
      info := ctx.nullbyte;
      this.socket := socket;
      new;
      socket.SendMultipart([jobId, ctx.jobProcessing, ctx.nullbyte]);
    }

    /** Entering the `with` block hands back the session itself. */
    method Enter() returns (s: ClientStatus)
      ensures s == this
    {
      return this;
    }

    /** Leaving the `with` block, however it is left, sends the final
        state and info. */
    method Exit()
      modifies socket
      ensures socket.sent == old(socket.sent) + [[jobId, jobState, info]]
    {
      socket.SendMultipart([jobId, jobState, info]);
    }
  }

  /** An assignment the job's code makes to the session while it runs. */
  datatype Update = SetState(state: Bytes) | SetInfo(info: Bytes)

  /** The state last assigned by `updates`, or `default` when none is. */
  function FinalState(updates: seq<Update>, default: Bytes): Bytes {
    if updates == [] then default
    else match updates[|updates| - 1]
      case SetState(s) => s
      case SetInfo(_) => FinalState(updates[..|updates| - 1], default)
  }

  /** The info last assigned by `updates`, or `default` when none is. */
  function FinalInfo(updates: seq<Update>, default: Bytes): Bytes {
    if updates == [] then default
    else match updates[|updates| - 1]
      case SetInfo(s) => s
      case SetState(_) => FinalInfo(updates[..|updates| - 1], default)
  }

  /** Assignments to the info alone leave the reported state as it was. */
  lemma {:induction false} FinalStateSkipsInfo(a: seq<Update>, b: seq<Update>, default: Bytes)
    requires forall j :: 0 <= j < |b| ==> !b[j].SetState?
    ensures FinalState(a + b, default) == FinalState(a, default)
  {
    if b != [] {
      var n := |b| - 1;
      FinalStateSkipsInfo(a, b[..n], default);
      assert (a + b)[..|a + b| - 1] == a + b[..n];
      assert (a + b)[|a + b| - 1] == b[n];
    } else {
      assert a + b == a;
    }
  }

  /** The last state assignment wins; with none, the default is reported. */
  lemma FinalStateIsLast(a: seq<Update>, x: Bytes, b: seq<Update>, default: Bytes)
    requires forall j :: 0 <= j < |b| ==> !b[j].SetState?
    ensures FinalState(a + [SetState(x)] + b, default) == x
    ensures FinalState(b, default) == default
  {
    FinalStateSkipsInfo(a + [SetState(x)], b, default);
    FinalStateSkipsInfo([], b, default);
    assert [] + b == b;
  }

  /** Assignments to the state alone leave the reported info as it was. */
  lemma {:induction false} FinalInfoSkipsState(a: seq<Update>, b: seq<Update>, default: Bytes)
    requires forall j :: 0 <= j < |b| ==> !b[j].SetInfo?
    ensures FinalInfo(a + b, default) == FinalInfo(a, default)
  {
    if b != [] {
      var n := |b| - 1;
      FinalInfoSkipsState(a, b[..n], default);
      assert (a + b)[..|a + b| - 1] == a + b[..n];
      assert (a + b)[|a + b| - 1] == b[n];
    } else {
      assert a + b == a;
    }
  }

  /** The last info assignment wins; with none, the default is reported. */
  lemma FinalInfoIsLast(a: seq<Update>, x: Bytes, b: seq<Update>, default: Bytes)
    requires forall j :: 0 <= j < |b| ==> !b[j].SetInfo?
    ensures FinalInfo(a + [SetInfo(x)] + b, default) == x
    ensures FinalInfo(b, default) == default
  {
    FinalInfoSkipsState(a + [SetInfo(x)], b, default);
    FinalInfoSkipsState([], b, default);
    assert [] + b == b;
  }

  /** The two messages a session sends for one job. */
  function SessionMessages(jobId: Bytes, ctx: Context, updates: seq<Update>): seq<seq<Bytes>> {
    [[jobId, ctx.jobProcessing, ctx.nullbyte],
     [jobId, FinalState(updates, ctx.nullbyte), FinalInfo(updates, ctx.nullbyte)]]
  }

  /** A job run inside `with ClientStatus(...) as status:` whose code makes
      the assignments `updates` and then returns or raises: the socket
      receives the processing marker, then the last-assigned state and info. */
  method Session(socket: Socket, jobId: Bytes, ctx: Context, updates: seq<Update>)
    returns (status: ClientStatus)
    modifies socket
    ensures socket.sent == old(socket.sent) + SessionMessages(jobId, ctx, updates)
    ensures status.socket == socket && status.jobId == jobId && status.ctx == ctx
    ensures status.jobState == FinalState(updates, ctx.nullbyte)
    ensures status.info == FinalInfo(updates, ctx.nullbyte)
  {
    status := new ClientStatus(socket, jobId, ctx);
    var s := status.Enter();
    var i := 0;
    while i < |updates|
      invariant 0 <= i <= |updates|
      invariant s == status && status.socket == socket && status.jobId == jobId
      invariant status.jobState == FinalState(updates[..i], ctx.nullbyte)
      invariant status.info == FinalInfo(updates[..i], ctx.nullbyte)
      invariant socket.sent == old(socket.sent) + [[jobId, ctx.jobProcessing, ctx.nullbyte]]
    {
      assert updates[..i + 1][..i] == updates[..i];
      match updates[i] {
        case SetState(b) => s.jobState := b;
        case SetInfo(b) => s.info := b;
      }
      i := i + 1;
    }
    assert updates[..i] == updates;
    s.Exit();
  }
}
