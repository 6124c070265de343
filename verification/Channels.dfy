/** `chan_init`, `chan_send` and `chan_recv` on the kernel object: each segment of a call, up to the next point where
    it may switch threads, is proved to be one move of `Channel`. */
module Channels {
  import opened Basics
  import opened Sched
  import opened SchedInv
  import opened SchedEffects
  import opened Channel
  import opened ChannelInv
  import opened ChannelRuns
  import K = Kernel

  class ChannelKernel {
    const k: K.Kernel
    var chans: map<nat, Chan>
    var stage: map<Tid, Stage>
    var cell: map<Tid, nat>

    ghost function Value(): System
      reads this, k
    {
      System(k.Value(), chans, stage, cell)
    }

    ghost predicate Valid()
      reads this, k
    {
      SysInv(Value())
    }

    constructor ()
      ensures Valid() && Value() == Channel.START && fresh(k)
    {
      k := new K.Kernel();
      chans := map[];
      stage := map[];
      cell := map[];
      new;
      ChannelRuns.StartInv();
    }

    function StageNow(): (s: Stage)
      reads this, k
      ensures s == StageOf(Value(), k.current)
    {
      if k.current in stage then stage[k.current] else Outside
    }

    method ChanInit(ch: nat)
      requires Valid() && CanMove(Value(), Init(ch))
      modifies this, k
      ensures Valid() && Value() == Next(old(Value()), Init(ch))
    {
      hide SysInv, Inv, Enabled, InitSem;
      ghost var c := Value();
      MoveKeepsInv(c, Init(ch));
      InitIsEnabled(c, ch);
      k.SemInit(SendSem(ch), 1);
      k.SemInit(RecvSem(ch), 0);
      k.SemInit(SyncSem(ch), 0);
      chans := chans[ch := Chan([], None, [], [], [])];
    }

    /** `chan_send` up to the wait for the receiver, on the call or when woken in its first `sem_down`; true when the
        message is posted. */
    method Post(ch: nat, msg: Message) returns (posted: bool)
      requires Valid() && k.status == Live && Ready3(Value(), ch) && !StageNow().Waiting?
               && Enabled(k.Value(), DownOp(SendSem(ch)))
      modifies this, k
      ensures Valid() && Value() == TrySend(old(Value()), ch, msg) && (posted <==> old(k.sems[SendSem(ch)]) > 0)
    {
      hide SysInv, Inv, Enabled, Down, UpSem, Step, Items, Th, Premature;
      ghost var c := Value();
      var me := k.current;
      SendKeeps(c, ch, msg);
      KernelInv(c);
      PostSteps(c.k, ch);
      posted := k.SemDown(SendSem(ch));
      if !posted {
        stage := stage[me := Sending(ch, msg)];
        return;
      }
      var x := chans[ch];
      cell := cell[me := |msg|];
      chans := chans[ch := x.(ptr := msg, size := Some(me), sends := x.sends + [msg])];
      stage := stage[me := Waiting(ch, |x.sends|)];
      k.SemUp(RecvSem(ch));
    }

    /** The second `sem_down` of `chan_send`; the result is what the call returns.  A premature return breaks the
        channel, but not the kernel. */
    method AwaitReceiver() returns (size: Option<nat>)
      requires Valid() && k.status == Live && StageNow().Waiting?
      modifies this, k
      ensures k.Valid() && (!Premature(old(Value())) ==> Valid())
      ensures CanMove(old(Value()), GoOn) && Value() == Next(old(Value()), GoOn)
      ensures var c := old(Value()); var ch := StageOf(c, c.k.current).chan;
              size == if c.k.sems[SyncSem(ch)] > 0 then Some(Cell(c, c.k.current)) else None
    {
      hide SysInv, Inv, Enabled, Down, Premature, Step, Items, Th;
      ghost var c := Value();
      var me, ch, idx := k.current, stage[k.current].chan, stage[k.current].idx;
      if !Premature(c) {
        AwaitKeeps(c);
      }
      CallsCanGoOn(c);
      KernelInv(c);
      AwaitStep(c.k, ch);
      var got := k.SemDown(SyncSem(ch));
      if !got {
        return None;
      }
      var n := if me in cell then cell[me] else 0;
      stage := stage[me := Outside];
      chans := chans[ch := chans[ch].(acks := chans[ch].acks + [Ack(idx, n)])];
      size := Some(n);
    }

    /** `chan_recv`, on the call or when woken in its `sem_down`; the result is what was copied to the caller's
        buffer. */
    method Receive(ch: nat, room: nat) returns (data: Option<Message>)
      requires Valid() && k.status == Live && Ready3(Value(), ch) && !StageNow().Waiting?
               && Enabled(k.Value(), DownOp(RecvSem(ch)))
      modifies this, k
      ensures Valid() && Value() == TryRecv(old(Value()), ch, room)
      ensures data.Some? <==> old(k.sems[RecvSem(ch)]) > 0
      ensures data.Some? ==> ch in chans && chans[ch].recvs == old(chans)[ch].recvs + [Receipt(data.value, room)]
    {
      hide SysInv, Inv, Enabled, Down, UpSem, Step, Items, Th, Premature;
      ghost var c := Value();
      var me := k.current;
      RecvKeeps(c, ch, room);
      KernelInv(c);
      RecvSteps(c.k, ch);
      var got := k.SemDown(RecvSem(ch));
      if !got {
        stage := stage[me := Receiving(ch, room)];
        return None;
      }
      var x := chans[ch];
      var owner := if x.size.Some? then x.size.value else ROOT;
      var n := if owner in cell then cell[owner] else 0;
      if room < n {
        n := room;
      }
      cell := cell[owner := n];
      var bytes := Copied(x, n);
      chans := chans[ch := x.(recvs := x.recvs + [Receipt(bytes, room)])];
      stage := stage[me := Outside];
      k.SemUp(SyncSem(ch));
      k.SemUp(SendSem(ch));
      data := Some(bytes);
    }
  }

  lemma KernelInv(c: System)
    requires SysInv(c)
    ensures Inv(c.k)
  {
  }

  lemma NobodyOn(c: System, ch: nat)
    requires SysInv(c) && CanMove(c, Init(ch))
    ensures forall t :: Th(c.k, t).blk != OnSem(SendSem(ch)) && Th(c.k, t).blk != OnSem(RecvSem(ch)) && Th(c.k, t).blk != OnSem(SyncSem(ch))
  {
    hide Inv, ChanOk;
    forall t
      ensures Th(c.k, t).blk != OnSem(SendSem(ch)) && Th(c.k, t).blk != OnSem(RecvSem(ch))
              && Th(c.k, t).blk != OnSem(SyncSem(ch))
    {
      assert StageAgrees(c, t);
    }
  }

  lemma InitIsEnabled(c: System, ch: nat)
    requires SysInv(c) && CanMove(c, Init(ch))
    ensures Inv(c.k) && Enabled(c.k, InitOp(SendSem(ch), 1))
    ensures var a := InitSem(c.k, SendSem(ch), 1);
            && Enabled(a, InitOp(RecvSem(ch), 0))
            && var b := InitSem(a, RecvSem(ch), 0); Enabled(b, InitOp(SyncSem(ch), 0))
    ensures forall st, s, v :: Enabled(st, InitOp(s, v)) ==> Step(st, InitOp(s, v)) == InitSem(st, s, v)
  {
    KernelInv(c);
    NobodyOn(c, ch);
    hide SysInv, Inv;
  }

  /** The operations of `chan_send` can be called one after the other. */
  lemma PostSteps(st: State, ch: nat)
    requires Inv(st) && Enabled(st, DownOp(SendSem(ch))) && RecvSem(ch) in st.sems
    ensures var d := Down(st, SendSem(ch));
            && Step(st, DownOp(SendSem(ch))) == d
            && (st.sems[SendSem(ch)] > 0 ==>
                  && d.current == st.current && Enabled(d, UpOp(RecvSem(ch)))
                  && Step(d, UpOp(RecvSem(ch))) == UpSem(d, RecvSem(ch)))
  {
    hide *;
    DownIs(st, SendSem(ch));
    if st.sems[SendSem(ch)] > 0 {
      DownTakes(st, SendSem(ch));
      UpIs(Down(st, SendSem(ch)), RecvSem(ch));
    }
  }

  lemma AwaitStep(st: State, ch: nat)
    requires Inv(st) && Enabled(st, DownOp(SyncSem(ch)))
    ensures Step(st, DownOp(SyncSem(ch))) == Down(st, SyncSem(ch))
  {
    hide Inv, Down;
  }

  lemma RecvSteps(st: State, ch: nat)
    requires Inv(st) && Enabled(st, DownOp(RecvSem(ch))) && SyncSem(ch) in st.sems && SendSem(ch) in st.sems
    ensures var d := Down(st, RecvSem(ch));
            && Step(st, DownOp(RecvSem(ch))) == d
            && (st.sems[RecvSem(ch)] > 0 ==>
                  && Enabled(d, UpOp(SyncSem(ch))) && Step(d, UpOp(SyncSem(ch))) == UpSem(d, SyncSem(ch))
                  && var u := UpSem(d, SyncSem(ch)); Enabled(u, UpOp(SendSem(ch))) && Step(u, UpOp(SendSem(ch))) == UpSem(u, SendSem(ch)))
  {
    hide *;
    DownIs(st, RecvSem(ch));
    if st.sems[RecvSem(ch)] > 0 {
      DownTakes(st, RecvSem(ch));
      var d := Down(st, RecvSem(ch));
      UpIs(d, SyncSem(ch));
      UpEffect(d, SyncSem(ch));
      SameCalls(d, UpSem(d, SyncSem(ch)));
      UpIs(UpSem(d, SyncSem(ch)), SendSem(ch));
    }
  }
}
