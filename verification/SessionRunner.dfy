/**
  The session runner's critical sections as methods over its fields (src/app/serve_runner.cpp). `world` is the
  whole state of the two threads; each method is one step of it.
*/
module SessionRunners {
  import opened Wrappers
  import opened Utf8
  import opened Runner

  /** The oldest records go until those kept are few enough. */
  method KeepLast(turns: seq<Record>) returns (kept: seq<Record>)
    ensures kept == Trimmed(turns)
  {
    kept := turns;
    while |kept| > TURNS_KEPT
      invariant |kept| <= |turns| && kept == turns[|turns| - |kept|..]
      invariant |turns| <= TURNS_KEPT ==> kept == turns
      invariant |turns| > TURNS_KEPT ==> |kept| >= TURNS_KEPT
      decreases |kept|
    {
      kept := kept[1..];
    }
  }

  class SessionRunner {
    var jobs: seq<Job>
    var stopping: bool
    var running: bool
    var turns: seq<Record>
    var attached: Option<Conn>
    var token: Option<Turn>
    var cancelRequested: bool
    /** Ids given out: of turns and of frames. */
    var nextTurn: Turn
    var nextFrame: Frame
    /** Flags the connections and the tokens hold themselves. */
    var closed: set<Conn>
    var onPage: set<Conn>
    var raised: set<Turn>
    ghost var world: State

    ghost predicate Valid()
      reads this
    {
      && world.queue == Queue(jobs, stopping, running)
      && world.book.turns == turns && world.book.begun == nextTurn && |world.book.log| == nextFrame
      && world.pages.attached == attached && world.pages.closed == closed && world.pages.onPage == onPage
      && world.tokens.token == token && world.tokens.cancelRequested == cancelRequested && world.tokens.raised == raised
    }

    constructor ()
      ensures Valid() && world == START
    {
      jobs, stopping, running, turns, attached, token, cancelRequested := [], false, false, [], None, None, false;
      nextTurn, nextFrame, closed, onPage, raised := 0, 0, {}, {}, {};
      world := START;
    }

    // -------------------------------------------------------------- attach_mutex_

    method Attach(c: Conn) returns (ok: bool, pending: seq<Frame>)
      requires Valid() && SocketEnabled(world, Action.Attach(c))
      modifies this
      ensures Valid() && world == SocketStep(old(world), Action.Attach(c))
      ensures ok <==> !Refuses(old(world).pages, c)
      ensures ok ==> attached == Some(c) && world.sockets == Attaching(c, pending)
    {
      hide FramesForNextPage;
      pending := [];
      if attached.Some? && attached.value != c && attached.value !in closed && attached.value in onPage {
        if c.client == [] || c.client != attached.value.client {
          world := SocketStep(world, Action.Attach(c));
          return false, pending;
        }
      }
      if attached.Some? && attached.value != c { onPage := onPage - {attached.value}; }
      attached := Some(c);
      pending := ReadFrames();
      world := SocketStep(world, Action.Attach(c));
      ok := true;
    }

    /** The last record's frames after those of the one before it. */
    method ReadFrames() returns (frames: seq<Frame>)
      ensures frames == FramesForNextPage(turns)
    {
      frames := [];
      if turns == [] { return; }
      var from := if |turns| >= 2 then |turns| - 2 else 0;
      var i := from;
      while i < |turns|
        invariant from <= i <= |turns|
        invariant i == from ==> frames == []
        invariant i == from + 1 ==> frames == turns[from].frames
        invariant i == from + 2 ==> frames == turns[from].frames + turns[from + 1].frames
      {
        frames := frames + turns[i].frames;
        i := i + 1;
      }
    }

    method Detach(c: Conn) returns (leftAlone: bool)
      requires Valid() && SocketEnabled(world, Action.Detach) && world.sockets.conn == c
      modifies this
      ensures Valid() && world == SocketStep(old(world), Action.Detach)
      ensures leftAlone <==> old(attached) == Some(c)
      ensures leftAlone <==> world.sockets.LeftAlone?
    {
      leftAlone := attached == Some(c);
      world := SocketStep(world, Action.Detach);
      if leftAlone { attached := None; }
    }

    /** Where the frame just logged goes: the page attached now. */
    method AimFrame() returns (to: Option<Conn>)
      requires Valid() && WorkerEnabled(world, Aim)
      modifies `world
      ensures Valid() && world == WorkerStep(old(world), Aim) && world.worker.sending.to == to
    {
      to := attached;
      world := WorkerStep(world, Aim);
    }

    // -------------------------------------------------------------- turn_mutex_

    /** The installed token is set, if there is one; only a page's own cancel is answered. */
    method RequestCancel(ghost why: Reason, byPage: bool)
      requires Valid() && byPage == why.ByPage?
      modifies this
      ensures Valid() && world == old(world).(tokens := Cancelled(old(world).tokens, why))
    {
      world := world.(tokens := Cancelled(world.tokens, why));
      if token == None { return; }
      if byPage { cancelRequested := true; }
      raised := raised + {token.value};
    }

    method CancelTurn(c: Conn)
      requires Valid() && SocketEnabled(world, PageCancel(c))
      modifies this
      ensures Valid() && world == SocketStep(old(world), PageCancel(c))
    {
      RequestCancel(ByPage(c), true);
    }

    method CancelLeftTurn(c: Conn)
      requires Valid() && SocketEnabled(world, CancelLeft) && world.sockets.conn == c
      modifies this
      ensures Valid() && world == SocketStep(old(world), CancelLeft)
    {
      RequestCancel(ByClose(c), false);
      world := world.(sockets := Free);
    }

    method StopTheTurn()
      requires Valid() && SocketEnabled(world, StopToken)
      modifies this
      ensures Valid() && world == SocketStep(old(world), StopToken)
    {
      RequestCancel(ByStop, false);
      world := world.(sockets := Over);
    }

    method InstallToken() returns (mine: Turn)
      requires Valid() && WorkerEnabled(world, Install)
      modifies this
      ensures Valid() && world == WorkerStep(old(world), Install) && token == Some(mine)
    {
      mine := nextTurn - 1;
      token, cancelRequested := Some(mine), false;
      world := WorkerStep(world, Install);
    }

    method ReadPageAsked() returns (asked: bool)
      requires Valid() && WorkerEnabled(world, ReadAsked)
      modifies this
      ensures Valid() && world == WorkerStep(old(world), ReadAsked) && asked == old(cancelRequested) == world.worker.pageAsked
    {
      asked, cancelRequested := cancelRequested, false;
      world := WorkerStep(world, ReadAsked);
    }

    method ResetToken()
      requires Valid() && WorkerEnabled(world, ClearToken)
      modifies this
      ensures Valid() && world == WorkerStep(old(world), ClearToken) && token == None
    {
      token := None;
      world := WorkerStep(world, ClearToken);
    }

    // -------------------------------------------------------------- turns_mutex_, frame_mutex_

    method BeginRecord()
      requires Valid() && WorkerEnabled(world, PushRecord)
      modifies this
      ensures Valid() && world == WorkerStep(old(world), PushRecord) && turns[|turns| - 1] == Record(old(nextTurn), false, [])
    {
      turns := KeepLast(turns + [Record(nextTurn, false, [])]);
      nextTurn := nextTurn + 1;
      world := WorkerStep(world, PushRecord);
    }

    method AppendToRecord() returns (f: Frame)
      requires Valid() && WorkerEnabled(world, LogFrame)
      modifies this
      ensures Valid() && world == WorkerStep(old(world), LogFrame) && world.worker.sending == Logged(f)
    {
      f := nextFrame;
      nextFrame := nextFrame + 1;
      if turns != [] {
        var last := |turns| - 1;
        turns := turns[last := turns[last].(frames := turns[last].frames + [f])];
      }
      world := WorkerStep(world, LogFrame);
    }

    method FinishTurn()
      requires Valid() && WorkerEnabled(world, FinishRecord)
      modifies this
      ensures Valid() && world == WorkerStep(old(world), FinishRecord)
    {
      if turns != [] {
        var last := |turns| - 1;
        turns := turns[last := turns[last].(finished := true)];
      }
      world := WorkerStep(world, FinishRecord);
    }

    // -------------------------------------------------------------- mutex_

    method Submit(c: Conn)
      requires Valid() && SocketEnabled(world, Action.Submit(c))
      modifies this
      ensures Valid() && world == SocketStep(old(world), Action.Submit(c))
    {
      jobs := jobs + [Job(Some(c), [])];
      world := SocketStep(world, Action.Submit(c));
    }

    method TakeJob() returns (job: Job)
      requires Valid() && WorkerEnabled(world, Take)
      modifies this
      ensures Valid() && world == WorkerStep(old(world), Take) && world.worker.job == job
    {
      job := jobs[0];
      jobs := jobs[1..];
      world := WorkerStep(world, Take);
    }

    method StopTaking()
      requires Valid() && SocketEnabled(world, StopJobs)
      modifies this
      ensures Valid() && world == SocketStep(old(world), StopJobs) && jobs == [] && stopping
    {
      stopping, jobs := true, [];
      world := SocketStep(world, StopJobs);
    }
  }
}
