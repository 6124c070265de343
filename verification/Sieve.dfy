/** The prime sieve as a network of processes over rendezvous channels.

    Node 0 is `source`; node k is the k-th `sink`, which turns into `filter` once it holds its primes. Slot k is the
    channel into node k.  A process always knows its next action, so a step is named by the process that takes it, and
    a run is any order in which the processes can go.  Messages are counted in ints. */
module Sieve {
  import opened Primes
  import opened Rendezvous

  /** Where a process stands: `Sinking` and `Filtering` at the receive of their loops, `Closing` and `Ending` at the
      receive of size zero after them. */
  datatype Pc = Sinking | Filtering | Sending | Awaiting | Closing | Ending | Joining | Finished

  /** `x` is the variable of that name (`i` in `source`; before the first receive, the number that spawned the
      process). `got` is the history of what was received. */
  datatype Node = Node(pc: Pc, primes: seq<int>, x: int, got: seq<int>)

  /** `n` is how many primes a process takes, `last` the largest number of interest. */
  datatype Params = Params(n: nat, last: nat)

  datatype Net = Net(nodes: seq<Node>, slots: seq<Slot>, actual: seq<int>)

  const START := Net([Node(Sending, [], 2, []), Node(Sinking, [], 1, [])], [Empty, Empty], [])

  /** The numbers that `source` sends: 2 and the odd numbers from 3. */
  predicate IsSource(n: int) {
    n == 2 || (n >= 3 && n % 2 == 1)
  }

  function NextSource(i: int): int {
    if i == 2 then 3 else i + 2
  }

  function Delivered(s: Slot, x: int): int {
    if s.Offered? && |s.msg| > 0 then s.msg[0] else x
  }

  /** The event by which a process communicates next, and the slot it does that on. */
  function Action(nd: Node): Event {
    match nd.pc
    case Sinking => Take(1)
    case Filtering => Take(1)
    case Sending => Offer([nd.x])
    case Awaiting => Acknowledge
    case _ => Take(0)
  }

  function SlotUsed(net: Net, k: nat): nat
    requires k < |net.nodes|
  {
    if net.nodes[k].pc.Sending? || net.nodes[k].pc.Awaiting? then k + 1 else k
  }

  predicate CanGo(net: Net, k: nat) {
    && k < |net.nodes|
    && match net.nodes[k].pc
       case Finished => false
       case Joining => k + 1 < |net.nodes| && net.nodes[k + 1].pc.Finished?
       case _ => SlotUsed(net, k) < |net.slots| && Possible(net.slots[SlotUsed(net, k)], Action(net.nodes[k]))
  }

  /** What `chan_send` returning `n` means for its caller. */
  function Sent(nd: Node, isSource: bool, n: nat): Node {
    if isSource then (if n == 0 then nd.(pc := Finished) else nd.(pc := Sending, x := NextSource(nd.x)))
    else nd.(pc := if n == 0 then Closing else Filtering)
  }

  function Filtered(nd: Node, x: int): Node {
    nd.(x := x, got := nd.got + [x], pc := if Sieved(nd.primes, x) then Sending else Filtering)
  }

  function Sunk(nd: Node, x: int, p: Params): Node {
    var m := nd.(x := x, got := nd.got + [x]);
    if !Sieved(nd.primes, x) then m
    else if x > p.last then m.(pc := Ending)
    else m.(primes := nd.primes + [x], pc := if |nd.primes| + 1 == p.n then Filtering else Sinking)
  }

  predicate Accepts(nd: Node, x: int, p: Params) {
    Sieved(nd.primes, x) && x <= p.last
  }

  /** The sink takes a number: it may record a prime, and the last prime it has room for starts another sink. */
  function Sink(net: Net, k: nat, p: Params): Net
    requires k < |net.nodes| && k < |net.slots| && Possible(net.slots[k], Take(1))
  {
    var x := Delivered(net.slots[k], net.nodes[k].x);
    var nd := Sunk(net.nodes[k], x, p);
    var nodes, slots := net.nodes[k := nd], net.slots[k := After(net.slots[k], Take(1))];
    if !Accepts(net.nodes[k], x, p) then net.(nodes := nodes, slots := slots)
    else if nd.pc.Filtering? then Net(nodes + [Node(Sinking, [], x, [])], slots + [Empty], net.actual + [x])
    else Net(nodes, slots, net.actual + [x])
  }

  function Next(net: Net, k: nat, p: Params): Net
    requires CanGo(net, k)
  {
    var nd := net.nodes[k];
    var j := SlotUsed(net, k);
    match nd.pc
    case Sinking => Sink(net, k, p)
    case Filtering =>
      net.(nodes := net.nodes[k := Filtered(nd, Delivered(net.slots[k], nd.x))], slots := net.slots[k := After(net.slots[k], Take(1))])
    case Sending => net.(nodes := net.nodes[k := nd.(pc := Awaiting)], slots := net.slots[j := After(net.slots[j], Offer([nd.x]))])
    case Awaiting => net.(nodes := net.nodes[k := Sent(nd, k == 0, net.slots[j].n)], slots := net.slots[j := Empty])
    case Closing => net.(nodes := net.nodes[k := nd.(pc := Joining)], slots := net.slots[k := After(net.slots[k], Take(0))])
    case Ending => net.(nodes := net.nodes[k := nd.(pc := Finished)], slots := net.slots[k := After(net.slots[k], Take(0))])
    case Joining => net.(nodes := net.nodes[k := nd.(pc := Finished)])
    case Finished => net
  }

  ghost predicate AllFinished(net: Net) {
    forall k :: 0 <= k < |net.nodes| ==> net.nodes[k].pc.Finished?
  }
}
