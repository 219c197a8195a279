/** What a process that has asked for I/O can be told, over runs of any length. */
module IoAnswers {
  import opened Lists
  import opened ListX
  import opened Nucleus
  import opened Devices
  import opened Termination
  import opened Soundness
  import opened Steps
  import opened Runs
  import opened Semaphores
  import opened SemaphoreLaws
  import opened Contexts

  /** Who waits on k after an event: nobody new but the process that was running; and the wait for a device is
      ended by death or by a V on its semaphore only. */
  ghost predicate WaitsOn(n: Nuc, e: Event, m: Nuc, k: int, x: Idx) {
    && (x in m.Waiters(k) ==> x in n.Waiters(k) || n.current == Some(x))
    && (IsDevice(k) && k != PSEUDOCLOCK && Vs(e, k) == 0 && x in n.Waiters(k) ==> x in m.Waiters(k) || x in m.Free())
  }

  lemma StepWaits(n: Nuc, e: Event, k: int, x: Idx)
    requires Inv(n) && Enabled(n, e)
    ensures WaitsOn(n, e, Step(n, e), k, x)
  {
    StepEffect(n, e, k);
    EffectWaits(n, e, Step(n, e), k, x);
  }

  lemma EffectWaits(n: Nuc, e: Event, m: Nuc, k: int, x: Idx)
    requires Enabled(n, e) && Effect(n, e, m, k)
    ensures WaitsOn(n, e, m, k, x)
  {
    if n.Waiters(k) != [] {
      assert n.Waiters(k) == [n.Waiters(k)[0]] + n.Waiters(k)[1..];
    }
  }

  /** A process that has left the queue of a transmitter alive, and not run since, has been told of success. */
  ghost predicate Told(n: Nuc, c: Idx) {
    n.pcb[c].semAdd.None? && Context(n, c).a0 % 0x100 == OKCHARTRANS
  }

  lemma NotWaiting(n: Nuc, c: Idx)
    requires Inv(n)
    ensures n.pcb[c].semAdd.None? ==> forall k :: c !in n.Waiters(k)
    ensures forall k :: c in n.Waiters(k) <==> n.pcb[c].semAdd == Some(k)
  {
    forall k ensures c in n.Waiters(k) <==> n.pcb[c].semAdd == Some(k) {
      WaitersNoDup(n, k, Roots(n), Held(n));
    }
  }

  /** Whoever stops waiting for a transmitter without dying has been woken by an interrupt that the handler
      took for the transmitter's, and is told of success. */
  lemma WriterHears(n: Nuc, e: Event, d: nat, c: Idx)
    requires Inv(n) && Enabled(n, e) && d <= 7 && c !in n.Free() && c !in Step(n, e).Free()
    requires n.pcb[c].semAdd == Some(InterruptKey(Port(7, d, false)))
    ensures Step(n, e).pcb[c].semAdd == n.pcb[c].semAdd || Told(Step(n, e), c)
  {
    var m, k := Step(n, e), InterruptKey(Port(7, d, false));
    StepKeeps(n, e);
    NotWaiting(n, c);
    NotWaiting(m, c);
    StepWaits(n, e, k, c);
    if c !in m.Waiters(k) {
      PortsDiffer(e.signal.Source(), Port(7, d, false));
      TransmitterAnswer(e.signal);
      FirstLeaves(n, e, m, k, c);
      StepContext(n, e, c);
      WokenFree(n, e, c);
    }
  }

  lemma FirstLeaves(n: Nuc, e: Event, m: Nuc, k: int, c: Idx)
    requires Inv(n) && Enabled(n, e) && m == Step(n, e) && e.Interrupt? && IsPort(e.signal.Source())
    requires k == InterruptKey(e.signal.Source()) && c in n.Waiters(k) && c !in m.Waiters(k)
    ensures c == n.Waiters(k)[0]
  {
    InvAsl(n);
    InterruptEffect(n, e.ps, k, e.signal.Answer(), e.t1, e.t2, k);
    OnlyFirst(n, DeviceDone(n, e.ps, k, e.signal.Answer(), e.t1, e.t2), k, c);
  }

  lemma OnlyFirst(n: Nuc, m: Nuc, k: int, c: Idx)
    requires Raised(n, m, k) && c in n.Waiters(k) && c !in m.Waiters(k)
    ensures c == n.Waiters(k)[0]
  {
    assert n.Waiters(k) == [n.Waiters(k)[0]] + n.Waiters(k)[1..];
  }

  /** A process that is not running when an event happens starts no wait. */
  lemma WokenFree(n: Nuc, e: Event, c: Idx)
    requires Inv(n) && Enabled(n, e) && n.current != Some(c)
    ensures Step(n, e).pcb[c].semAdd.None? || Step(n, e).pcb[c].semAdd == n.pcb[c].semAdd
  {
    var m := Step(n, e);
    StepKeeps(n, e);
    NotWaiting(n, c);
    NotWaiting(m, c);
    if m.pcb[c].semAdd.Some? {
      StepWaits(n, e, m.pcb[c].semAdd.value, c);
    }
  }

  lemma ToldStays(n: Nuc, e: Event, c: Idx)
    requires Inv(n) && Enabled(n, e) && n.current != Some(c) && c !in n.Free() && c !in Step(n, e).Free() && Told(n, c)
    ensures Told(Step(n, e), c)
  {
    NotWaiting(n, c);
    WokenFree(n, e, c);
    StepContext(n, e, c);
  }

  lemma NextTold(ss: seq<Nuc>, es: seq<Event>, h: nat, j: nat, d: nat, c: Idx)
    requires Run(ss, es) && j == h + 1 <= |es| && d <= 7 && c !in ss[h].Free() && c !in ss[j].Free()
    requires ss[h].current != Some(c)
    requires ss[h].pcb[c].semAdd == Some(InterruptKey(Port(7, d, false))) || Told(ss[h], c)
    ensures ss[j].pcb[c].semAdd == Some(InterruptKey(Port(7, d, false))) || Told(ss[j], c)
  {
    NextState(ss, es, h, j);
    RunInv(ss, es, h);
    if Told(ss[h], c) {
      ToldStays(ss[h], es[h], c);
    } else {
      WriterHears(ss[h], es[h], d, c);
    }
  }

  lemma {:induction false} TellsSuccess(ss: seq<Nuc>, es: seq<Event>, i: nat, j: nat, d: nat, c: Idx)
    requires Run(ss, es) && i <= j <= |es| && d <= 7 && forall m :: i <= m <= j ==> c !in ss[m].Free()
    requires ss[i].pcb[c].semAdd == Some(InterruptKey(Port(7, d, false)))
    requires forall m :: i <= m < j ==> ss[m].current != Some(c)
    ensures ss[j].pcb[c].semAdd == Some(InterruptKey(Port(7, d, false))) || Told(ss[j], c)
    decreases j
  {
    if i < j {
      var h: nat := j - 1;
      assert c !in ss[h].Free() && c !in ss[j].Free() && ss[h].current != Some(c);
      TellsSuccess(ss, es, i, h, d, c);
      NextTold(ss, es, h, j, d, c);
    }
  }

  lemma Asked(ss: seq<Nuc>, es: seq<Event>, i: nat, h: nat, c: Idx)
    requires Run(ss, es) && h == i + 1 <= |es| && es[i].DoIO? && IsPort(es[i].port) && ss[i].current == Some(c)
    ensures ss[h].pcb[c].semAdd == Some(InterruptKey(es[i].port)) && ss[h].current != Some(c)
  {
    NextState(ss, es, i, h);
    RunInv(ss, es, i);
    AskedNow(ss[i], es[i], c);
  }

  lemma AskedNow(n: Nuc, e: Event, c: Idx)
    requires Inv(n) && Enabled(n, e) && e.DoIO? && n.current == Some(c)
    ensures Step(n, e).pcb[c].semAdd == Some(InterruptKey(e.port)) && Step(n, e).current != Some(c)
  {
    var m, k := Step(n, e), InterruptKey(e.port);
    PortsPair(e.port);
    DeviceWaitEffect(n, e.ps, k, e.t1, e.t2, k);
    StepKeeps(n, e);
    InItsQueue(n, m, k, c);
  }

  lemma InItsQueue(n: Nuc, m: Nuc, k: int, c: Idx)
    requires Inv(m) && Joined(n, m, k, c)
    ensures m.pcb[c].semAdd == Some(k) && m.current != Some(c)
  {
    assert c in m.Waiters(k);
    NotWaiting(m, c);
    if m.current == Some(c) {
      RunningWaitsNot(m, c);
    }
  }

  lemma RunningWaitsNot(n: Nuc, c: Idx)
    requires Inv(n) && n.current == Some(c)
    ensures n.pcb[c].semAdd.None?
  {
  }

  /** A process that has asked a transmitter for I/O and runs again finds a success in its a0, whatever the
      transmitter has reported: a failed transmission is never told to anybody who waits for it. */
  lemma OnlySuccess(ss: seq<Nuc>, es: seq<Event>, i: nat, j: nat, c: Idx)
    requires Run(ss, es) && i < j <= |es| && es[i].DoIO? && IsPort(es[i].port)
    requires es[i].port.line == 7 && !es[i].port.rx && ss[i].current == Some(c) && ss[j].current == Some(c)
    requires forall m :: i < m <= j ==> c !in ss[m].Free()
    requires forall m :: i < m < j ==> ss[m].current != Some(c)
    ensures ss[j].cpu.a0 % 0x100 == OKCHARTRANS
  {
    var h := i + 1;
    Asked(ss, es, i, h, c);
    TellsSuccess(ss, es, h, j, es[i].port.dev, c);
    RunInv(ss, es, j);
    RunningWaitsNot(ss[j], c);
  }
}
