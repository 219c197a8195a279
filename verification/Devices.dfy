/** Device register addresses and device semaphores: the index doIO computes from a command address
    (phase2/exceptions.c) against the one the interrupt handler computes (phase2/interrupts.c). */
module Devices {
  import opened Nucleus

  const START_DEVREG := 0x10000054
  const WORD := 0x1_0000_0000
  const OKCHARTRANS := 5

  /** The unsigned 32-bit computation of mapDeviceSemaphoreByAddr. */
  function MapDeviceSemaphoreByAddr(addr: nat): nat {
    var offset := (addr - START_DEVREG) % WORD;
    var line := offset / 0x80 + 3;
    var dev := offset % 0x80 / 0x10;
    var isRx := if line == 7 && offset % 0x10 == 0x04 then 1 else 0;
    (line - 3) * 8 + isRx * 8 + dev + 1
  }

  /** Interrupt line 3 (disk) to 7 (terminal), device 0 to 7, and for terminals the direction. */
  datatype Port = Port(line: nat, dev: nat, rx: bool)

  predicate IsPort(p: Port) {
    3 <= p.line <= 7 && p.dev <= 7 && (p.rx ==> p.line == 7)
  }

  /** Address of the command register: word 1 of the device register, or word 3 for a transmitter. */
  function CommandAddr(p: Port): nat
    requires IsPort(p)
  {
    START_DEVREG + (p.line - 3) * 0x80 + p.dev * 0x10 + if p.line == 7 && !p.rx then 0x0C else 0x04
  }

  /** The semaphore index nonTimerInterrupts computes for the device it serves. */
  function InterruptKey(p: Port): nat
    requires IsPort(p)
  {
    (p.line - 3) * 8 + p.dev + 1 + if p.rx then 8 else 0
  }

  /** A request and the interrupt that ends it use the same semaphore, a device semaphore other than the
      pseudo-clock's. */
  lemma PortsPair(p: Port)
    requires IsPort(p)
    ensures MapDeviceSemaphoreByAddr(CommandAddr(p)) == InterruptKey(p)
    ensures IsDevice(InterruptKey(p)) && InterruptKey(p) != PSEUDOCLOCK
  {
    var offset := CommandAddr(p) - START_DEVREG;
    assert offset % WORD == offset;
    assert offset / 0x80 == p.line - 3;
    assert offset % 0x80 == p.dev * 0x10 + if p.line == 7 && !p.rx then 0x0C else 0x04;
  }

  /** Two devices, or the two directions of a terminal, never share a semaphore. */
  lemma PortsDiffer(p: Port, q: Port)
    requires IsPort(p) && IsPort(q) && InterruptKey(p) == InterruptKey(q)
    ensures p == q
  {
  }

  /** Semaphores are in the order of the interrupt lines; those of the receivers come after those of all
      transmitters. */
  lemma KeysInOrder(p: Port, q: Port)
    requires IsPort(p) && IsPort(q)
    ensures InterruptKey(p) < InterruptKey(q) <==>
              p.line < q.line || (p.line == q.line && (if p.rx == q.rx then p.dev < q.dev else q.rx))
  {
  }

  /** Every device semaphore but the pseudo-clock's belongs to some port. */
  lemma PortsCover(k: int) returns (p: Port)
    requires IsDevice(k) && k != PSEUDOCLOCK
    ensures IsPort(p) && InterruptKey(p) == k
  {
    p := if k <= 40 then Port((k - 1) / 8 + 3, (k - 1) % 8, false) else Port(7, k - 41, true);
  }

  /** The interrupting device of highest priority: the lowest bit set in the bit map of its line. */
  function FirstPending(pending: seq<bool>): (d: nat)
    ensures d <= |pending| && (d < |pending| ==> pending[d]) && forall i :: 0 <= i < d ==> !pending[i]
  {
    if pending == [] || pending[0] then 0
    else
      assert forall i :: 1 <= i < |pending| ==> pending[i] == pending[1..][i - 1];
      1 + FirstPending(pending[1..])
  }

  /** An interrupt: the port that raised it, the bit map of its line, and the registers nonTimerInterrupts may
      read - the two status words of a terminal, or the one of any other device. The handler is told the line;
      device and direction it has to find out. */
  datatype Signal = Signal(raised: Port, pending: seq<bool>, transm: int, recv: int, status: int) {
    /** The port exists and is the first pending one of its line. */
    predicate Genuine() {
      |pending| == 8 && IsPort(raised) && raised.dev == FirstPending(pending)
    }

    /** The port that the handler takes the interrupt for: a terminal whose transmitter does not report a sent
        character is taken to have received one. */
    function Source(): Port {
      Port(raised.line, FirstPending(pending), raised.line == 7 && transm % 0x100 != OKCHARTRANS)
    }

    /** The status that the handler passes on. */
    function Answer(): int {
      if raised.line != 7 then status else if Source().rx then recv else transm
    }

    /** The status of the port that raised the interrupt. */
    function Reported(): int {
      if raised.line != 7 then status else if raised.rx then recv else transm
    }

    /** The guard under which the handler's test tells the directions of a terminal apart. */
    predicate Telling() {
      raised.line != 7 || (raised.rx <==> transm % 0x100 != OKCHARTRANS)
    }
  }

  /** The handler finds the port that raised the interrupt exactly under the guard, and then passes on that
      port's status; otherwise it takes the interrupt for the other direction of the terminal. */
  lemma SourceExact(signal: Signal)
    requires signal.Genuine()
    ensures IsPort(signal.Source())
    ensures signal.Source() == signal.raised <==> signal.Telling()
    ensures signal.Telling() ==> signal.Answer() == signal.Reported()
    ensures !signal.Telling() ==> signal.Source() == signal.raised.(rx := !signal.raised.rx)
  {
  }

  /** A transmission that ends with any status but a success, 4 for instance, is taken for a reception. */
  lemma Misread(signal: Signal)
    requires signal.Genuine() && signal.raised.line == 7 && !signal.raised.rx && signal.transm % 0x100 != OKCHARTRANS
    ensures !signal.Telling() && IsPort(signal.Source()) && signal.Source() == signal.raised.(rx := true)
    ensures InterruptKey(signal.Source()) == InterruptKey(signal.raised) + 8 && signal.Answer() == signal.recv
  {
  }

  /** What a transmitter is told is always a success. */
  lemma TransmitterAnswer(signal: Signal)
    requires signal.Genuine() && signal.Source().line == 7 && !signal.Source().rx
    ensures signal.Answer() % 0x100 == OKCHARTRANS
  {
  }

  /** The arithmetic of nonTimerInterrupts: which semaphore to V and what to tell the waiter. Under the guard
      they are those of the port that raised the interrupt. */
  method Decode(signal: Signal) returns (semIndex: nat, status: int)
    requires signal.Genuine()
    ensures IsPort(signal.Source()) && semIndex == InterruptKey(signal.Source()) && status == signal.Answer()
    ensures semIndex == InterruptKey(signal.raised) <==> signal.Telling()
    ensures signal.Telling() ==> status == signal.Reported()
  {
    var devNo := 0;
    while devNo < 8 && !signal.pending[devNo]
      invariant devNo <= 8 && forall i :: 0 <= i < devNo ==> !signal.pending[i]
    {
      devNo := devNo + 1;
    }
    assert devNo == FirstPending(signal.pending);
    semIndex := (signal.raised.line - 3) * 8 + devNo + 1;
    if signal.raised.line == 7 {
      if signal.transm % 0x100 == OKCHARTRANS {
        status := signal.transm;
      } else {
        status := signal.recv;
        semIndex := semIndex + 8;
      }
    } else {
      status := signal.status;
    }
    SourceExact(signal);
  }
}
