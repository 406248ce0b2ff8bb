/**
 The code of the two parties as each goroutine runs it: on its own agreement machine, on the escrow
 and the topics it shares with everybody else, and on the channel its subscription feeds.

 Between any two calls on shared objects anything may happen to these.  An Environment holds them
 together with what others make of them before each call of this party, and with what its
 subscriptions deliver.  Each method is proved, for every environment, to meet, do and leave
 exactly what its party does in the step system of Commerce.  The end of the module proves the
 converse side: in every run of that system each party is where its code gets to on the states it
 met and the messages it was delivered, and leaves exactly what its code leaves.  So the theorems
 of Commerce are about this code.
 */
module Parties {
  import opened Prelude
  import opened Commerce
  import A = Agreement
  import E = Escrow

  datatype Kind = KRequest | KResponse | KCreated | KInvoice | KAck

  function KindOf(m: Msg): Option<Kind>
  {
    if m.Request? then Some(KRequest)
    else if m.Response? then Some(KResponse)
    else if m.Created? then Some(KCreated)
    else if m.Invoice? then Some(KInvoice)
    else if m.Ack? then Some(KAck)
    else None
  }

  /** A delivered message, or one whose type and request id can be read but whose body cannot. */
  datatype Delivery = Carries(m: Msg) | BadBody(kind: Kind, rid: string)

  predicate Matches(d: Delivery, kind: Kind, rid: string)
  {
    match d
    case Carries(m) => KindOf(m) == Some(kind) && Asked(rid, m.rid)
    case BadBody(k, r) => k == kind && Asked(rid, r)
  }

  /** What a waiting party gets to see: a delivery, or the end of its wait. */
  datatype Turn = Delivers(d: Delivery) | Expires

  /** What the parties share. */
  datatype Shared = Shared(ledger: E.Ledger, toSeller: seq<Msg>, toBuyer: seq<Msg>)

  class TopicLog {
    var posted: seq<Msg>

    constructor ()
      ensures posted == []
    {
      posted := [];
    }

    method Publish(m: Msg)
      modifies this
      ensures posted == old(posted) + [m]
    {
      posted := posted + [m];
    }
  }

  class Environment {
    const escrow: E.MemoryEscrow
    const sellerStdIn: TopicLog
    const buyerStdIn: TopicLog
    var worlds: seq<Shared>      // the shared objects as this party's coming calls will find them
    var inbox: seq<Turn>         // what its subscriptions will deliver
    ghost var left: seq<Shared>  // the shared objects as its calls have left them

    constructor (escrow: E.MemoryEscrow, sellerStdIn: TopicLog, buyerStdIn: TopicLog, worlds: seq<Shared>, inbox: seq<Turn>)
      requires sellerStdIn != buyerStdIn
      ensures Valid() && this.escrow == escrow && this.sellerStdIn == sellerStdIn && this.buyerStdIn == buyerStdIn
      ensures this.worlds == worlds && this.inbox == inbox && left == []
    {
      this.escrow, this.sellerStdIn, this.buyerStdIn := escrow, sellerStdIn, buyerStdIn;
      this.worlds, this.inbox, left := worlds, inbox, [];
    }

    ghost predicate Valid()
    {
      sellerStdIn != buyerStdIn
    }

    function Now(): Shared
      reads escrow, sellerStdIn, buyerStdIn
    {
      Shared(escrow.View(), sellerStdIn.posted, buyerStdIn.posted)
    }

    /** Others act.  When there is nothing more to come, this party gets no further. */
    method Meet() returns (ok: bool)
      requires Valid()
      modifies this`worlds, escrow, sellerStdIn, buyerStdIn
      ensures ok <==> old(worlds) != []
      ensures ok ==> Now() == old(worlds)[0] && worlds == old(worlds)[1..]
      ensures !ok ==> Now() == old(Now()) && worlds == []
    {
      if worlds == [] {
        return false;
      }
      var l := worlds[0].ledger;
      escrow.escrows, escrow.nextID, escrow.releaseID, escrow.clock := l.escrows, l.nextID, l.releaseID, l.clock;
      sellerStdIn.posted, buyerStdIn.posted := worlds[0].toSeller, worlds[0].toBuyer;
      worlds := worlds[1..];
      return true;
    }

    ghost method Leave()
      modifies this`left
      ensures left == old(left) + [Now()]
    {
      left := left + [Now()];
    }

    ghost function Facing<P>(party: P): Conf<P>
      reads this
    {
      Conf(party, worlds, inbox, left)
    }

    ghost predicate Stands<P>(c: Conf<P>)
      reads this
    {
      worlds == c.worlds && inbox == c.inbox && left == c.left
    }
  }

  // ----- waiting

  datatype Awaited = Got(m: Msg) | Unparsable | TimedOut | Waiting

  /** A turn that does not end the wait. */
  predicate Skipped(t: Turn, kind: Kind, rid: string)
  {
    t.Delivers? && !Matches(t.d, kind, rid)
  }

  function Heard(t: Turn): Awaited
  {
    match t
    case Expires => TimedOut
    case Delivers(d) => if d.Carries? then Got(d.m) else Unparsable
  }

  /** The first n turns are taken: the last of them ends the wait, all others do not match. */
  ghost predicate IsAwaited(inbox: seq<Turn>, kind: Kind, rid: string, r: Awaited, n: nat)
  {
    && n <= |inbox|
    && (forall i | 0 <= i < n - 1 :: Skipped(inbox[i], kind, rid))
    && (if r == Waiting then n == |inbox| && (n > 0 ==> Skipped(inbox[n - 1], kind, rid))
        else n > 0 && !Skipped(inbox[n - 1], kind, rid) && r == Heard(inbox[n - 1]))
  }

  /** The first delivery that matches ends the wait, as an error when its body does not parse;
      everything before it is discarded. */
  method AwaitTypedPayload(env: Environment, kind: Kind, rid: string) returns (r: Awaited, ghost n: nat)
    modifies env`inbox
    ensures IsAwaited(old(env.inbox), kind, rid, r, n)
    ensures env.inbox == old(env.inbox)[n..]
  {
    n := 0;
    while env.inbox != []
      invariant n <= |old(env.inbox)| && env.inbox == old(env.inbox)[n..]
      invariant forall i | 0 <= i < n :: Skipped(old(env.inbox)[i], kind, rid)
      decreases |env.inbox|
    {
      var t := env.inbox[0];
      env.inbox := env.inbox[1..];
      n := n + 1;
      if t.Expires? {
        return TimedOut, n;
      }
      match t.d {
        case Carries(m) =>
          if KindOf(m) != Some(kind) {
            continue;
          }
          if rid != "" && m.rid != rid {
            continue;
          }
          return Got(m), n;
        case BadBody(k, r) =>
          if k == kind && (rid == "" || r == rid) {
            return Unparsable, n;
          }
      }
    }
    return Waiting, n;
  }

  // ----- one party of the step system on its own

  /** A party, what it has yet to meet and hear, and what it has left. */
  datatype Conf<P> = Conf(party: P, worlds: seq<Shared>, inbox: seq<Turn>, left: seq<Shared>)

  function SharedOf(w: World): Shared
  {
    Shared(w.ledger, w.toSeller, w.toBuyer)
  }

  function BuyerAtStart(): Buyer
  {
    Buyer(BStart, false, A.Idle, None, None, E.Placeholder(""), None, {})
  }

  function SellerAtStart(): Seller
  {
    Seller(SStart, false, A.Idle, None, "", "", "", 0, E.Placeholder(""), {})
  }

  function BuyerAt(cfg: Config, s: Shared, b: Buyer): World
  {
    World(cfg, s.ledger, s.toSeller, s.toBuyer, b, SellerAtStart())
  }

  function Awaits(pc: BuyerPc): Option<Kind>
  {
    if pc == BAwaitResponse then Some(KResponse) else if pc == BAwaitInvoice then Some(KInvoice) else None
  }

  function BuyerHears(b: Buyer, cfg: Config, t: Turn): Buyer
  {
    match t
    case Expires => b.(failed := true)
    case Delivers(Carries(m)) => BuyerTakes(b, cfg, m)
    case Delivers(BadBody(kind, rid)) => if Awaits(b.pc) == Some(kind) && Asked(cfg.rid, rid) then b.(failed := true) else b
  }

  predicate BuyerDone(b: Buyer, goal: BuyerPc)
  {
    b.failed || b.pc == goal || b.pc == BSettled
  }

  /** The steps of the buyer until it is done, or has nothing more to meet or to hear. */
  ghost function BuyerCode(c: Conf<Buyer>, cfg: Config, goal: BuyerPc): Conf<Buyer>
    decreases |c.worlds| + |c.inbox|
  {
    if BuyerDone(c.party, goal) then c
    else if BuyerWaits(c.party.pc) then
      if c.inbox == [] then c
      else BuyerCode(c.(party := BuyerHears(c.party, cfg, c.inbox[0]), inbox := c.inbox[1..]), cfg, goal)
    else if c.worlds == [] then c
    else
      var v := BuyerAct(BuyerAt(cfg, c.worlds[0], c.party));
      BuyerCode(c.(party := v.buyer, worlds := c.worlds[1..], left := c.left + [SharedOf(v)]), cfg, goal)
  }

  lemma BuyerRests(c: Conf<Buyer>, cfg: Config, goal: BuyerPc)
    requires BuyerDone(c.party, goal) || (if BuyerWaits(c.party.pc) then c.inbox == [] else c.worlds == [])
    ensures BuyerCode(c, cfg, goal) == c
  {
  }

  lemma {:induction false} BuyerSkips(c: Conf<Buyer>, cfg: Config, goal: BuyerPc, n: nat)
    requires !BuyerDone(c.party, goal) && Awaits(c.party.pc).Some? && n <= |c.inbox|
    requires forall i | 0 <= i < n :: Skipped(c.inbox[i], Awaits(c.party.pc).value, cfg.rid)
    ensures BuyerCode(c, cfg, goal) == BuyerCode(c.(inbox := c.inbox[n..]), cfg, goal)
    decreases n
  {
    if n == 0 {
      assert c.inbox[0..] == c.inbox;
    } else {
      assert Skipped(c.inbox[0], Awaits(c.party.pc).value, cfg.rid);
      assert BuyerHears(c.party, cfg, c.inbox[0]) == c.party;
      var d := c.(inbox := c.inbox[1..]);
      assert c.inbox[1..][n - 1..] == c.inbox[n..];
      BuyerSkips(d, cfg, goal, n - 1);
    }
  }

  /** The wait of the buyer, as AwaitTypedPayload performs it. */
  lemma BuyerAwaited(c: Conf<Buyer>, cfg: Config, goal: BuyerPc, r: Awaited, n: nat) returns (d: Conf<Buyer>)
    requires !BuyerDone(c.party, goal) && Awaits(c.party.pc).Some?
    requires IsAwaited(c.inbox, Awaits(c.party.pc).value, cfg.rid, r, n)
    ensures BuyerCode(c, cfg, goal) == BuyerCode(d, cfg, goal)
    ensures d == c.(party := d.party, inbox := c.inbox[n..])
    ensures d.party == match r
                       case Got(m) => BuyerTakes(c.party, cfg, m)
                       case Waiting => c.party
                       case _ => c.party.(failed := true)
    ensures r.Got? ==> KindOf(r.m) == Awaits(c.party.pc) && Asked(cfg.rid, r.m.rid)
    ensures r == Waiting ==> d.inbox == []
  {
    if r == Waiting {
      BuyerSkips(c, cfg, goal, n);
      d := c.(inbox := c.inbox[n..]);
    } else {
      BuyerSkips(c, cfg, goal, n - 1);
      assert c.inbox[n - 1..][1..] == c.inbox[n..];
      d := c.(party := BuyerHears(c.party, cfg, c.inbox[n - 1]), inbox := c.inbox[n..]);
    }
  }

  // The steps of the buyer outside its waits, and where they lead.

  function Onward<P>(c: Conf<P>, party: P, now: Shared): Conf<P>
    requires c.worlds != []
  {
    c.(party := party, worlds := c.worlds[1..], left := c.left + [now])
  }

  function BuyerPosts(b: Buyer, cfg: Config): Msg
    requires b.pc == BPublishCreated ==> b.escrow.Some?
  {
    if b.pc == BStart then Request(cfg.rid, cfg.price, cfg.currency)
    else if b.pc == BPublishCreated then Created(cfg.rid, b.escrow.value, cfg.price, cfg.currency)
    else Ack(cfg.rid, b.invoiced, "approved")
  }

  function BuyerFires(pc: BuyerPc): A.Event
  {
    if pc == BStart then A.ServiceRequest else if pc == BPublishCreated then A.EscrowCreated else A.InvoiceApproved
  }

  function AfterPublishing(pc: BuyerPc): BuyerPc
  {
    if pc == BStart then BSubscribe else if pc == BPublishCreated then BFunded else BSettled
  }

  lemma BuyerPublishes(c: Conf<Buyer>, cfg: Config, goal: BuyerPc) returns (d: Conf<Buyer>)
    requires !BuyerDone(c.party, goal) && c.party.pc in {BStart, BPublishCreated, BAck} && c.worlds != []
    requires c.party.pc == BPublishCreated ==> c.party.escrow.Some?
    ensures BuyerCode(c, cfg, goal) == BuyerCode(d, cfg, goal)
    ensures d == Onward(c, d.party, c.worlds[0].(toSeller := c.worlds[0].toSeller + [BuyerPosts(c.party, cfg)]))
    ensures d.party == match A.Next(c.party.state, BuyerFires(c.party.pc))
                       case None => c.party.(failed := true)
                       case Some(t) => c.party.(state := t, pc := AfterPublishing(c.party.pc))
  {
    FireOne(c.party.state, BuyerFires(c.party.pc));
    var v := BuyerAct(BuyerAt(cfg, c.worlds[0], c.party));
    d := Onward(c, v.buyer, SharedOf(v));
  }

  lemma BuyerSubscribes(c: Conf<Buyer>, cfg: Config, goal: BuyerPc) returns (d: Conf<Buyer>)
    requires !BuyerDone(c.party, goal) && c.party.pc in {BSubscribe, BFunded} && c.worlds != []
    ensures BuyerCode(c, cfg, goal) == BuyerCode(d, cfg, goal)
    ensures d == Onward(c, c.party.(pc := if c.party.pc == BSubscribe then BAwaitResponse else BAwaitInvoice, seen := {}), c.worlds[0])
  {
    var v := BuyerAct(BuyerAt(cfg, c.worlds[0], c.party));
    d := Onward(c, v.buyer, SharedOf(v));
  }

  lemma BuyerCreates(c: Conf<Buyer>, cfg: Config, goal: BuyerPc) returns (d: Conf<Buyer>)
    requires !BuyerDone(c.party, goal) && c.party.pc == BCreate && c.party.hash.Some? && c.worlds != []
    ensures BuyerCode(c, cfg, goal) == BuyerCode(d, cfg, goal)
    ensures var l := c.worlds[0].ledger;
            d == Onward(c, c.party.(escrow := Some(l.nextID + 1), pc := BDeposit),
                        c.worlds[0].(ledger := E.NewAccount(l, cfg.buyerEVM, cfg.sellerEVM, cfg.currency, c.party.hash.value, cfg.timeout)))
  {
    var v := BuyerAct(BuyerAt(cfg, c.worlds[0], c.party));
    d := Onward(c, v.buyer, SharedOf(v));
  }

  lemma BuyerDeposits(c: Conf<Buyer>, cfg: Config, goal: BuyerPc) returns (d: Conf<Buyer>)
    requires !BuyerDone(c.party, goal) && c.party.pc == BDeposit && c.party.escrow.Some? && c.worlds != []
    ensures BuyerCode(c, cfg, goal) == BuyerCode(d, cfg, goal)
    ensures match E.Deposited(c.worlds[0].ledger, E.EscrowRef("memory", c.party.escrow.value), cfg.price)
            case Err(_) => d == Onward(c, c.party.(failed := true), c.worlds[0])
            case Ok(l) => d == Onward(c, c.party.(pc := BPublishCreated), c.worlds[0].(ledger := l))
  {
    var v := BuyerAct(BuyerAt(cfg, c.worlds[0], c.party));
    d := Onward(c, v.buyer, SharedOf(v));
  }

  lemma BuyerApproves(c: Conf<Buyer>, cfg: Config, goal: BuyerPc) returns (d: Conf<Buyer>)
    requires !BuyerDone(c.party, goal) && c.party.pc == BApprove && c.party.escrow.Some? && c.worlds != []
    ensures BuyerCode(c, cfg, goal) == BuyerCode(d, cfg, goal)
    ensures match E.Approved(c.worlds[0].ledger, E.EscrowRef("memory", c.party.escrow.value), c.party.invoiced)
            case Err(_) => d == Onward(c, c.party.(failed := true), c.worlds[0])
            case Ok(l) => d == Onward(c, c.party.(released := d.party.released, pc := BAck), c.worlds[0].(ledger := l))
  {
    var v := BuyerAct(BuyerAt(cfg, c.worlds[0], c.party));
    d := Onward(c, v.buyer, SharedOf(v));
  }

  /** An invoice is taken in FUNDED or ACTIVE, the former by way of the latter. */
  lemma BuyerTakesInvoice(b: Buyer, cfg: Config, m: Msg)
    requires b.pc == BAwaitInvoice && m.Invoice? && Asked(cfg.rid, m.rid)
    ensures BuyerTakes(b, cfg, m) ==
            match A.Next(if b.state == A.Funded then A.Active else b.state, A.Invoice)
            case None => b.(failed := true, invoiced := m.release)
            case Some(t) => b.(state := t, pc := BApprove, invoiced := m.release)
  {
    assert [A.DeliveryStarted] + [A.Invoice] == [A.DeliveryStarted, A.Invoice];
    assert [A.DeliveryStarted, A.Invoice][1..] == [A.Invoice] && [A.Invoice][1..] == [];
    assert [] + [A.Invoice] == [A.Invoice];
    if b.state == A.Funded {
      assert Fire(A.Funded, [A.DeliveryStarted, A.Invoice]) == Fire(A.Active, [A.Invoice]);
    }
  }

  // ----- the buyer's code

  datatype CommerceError = InvalidConfig | NoAnswer | BadPayload | NotAccepted | TransitionRefused | EscrowFailed(e: E.EscrowError)

  /** How far a call got: it returned, it failed, or it is still waiting for its turn. */
  datatype Call<T> = Returned(value: T) | Failed(error: CommerceError) | Blocked

  /** The turn that was heard last. */
  function LastHeard(before: seq<Turn>, after: seq<Turn>): Option<Turn>
  {
    if |after| < |before| then Some(before[|before| - |after| - 1]) else None
  }

  /** The error that a turn itself is for whoever waits for it. */
  function ErrorOf(last: Option<Turn>): Option<CommerceError>
  {
    match last
    case Some(Expires) => Some(NoAnswer)
    case Some(Delivers(BadBody(_, _))) => Some(BadPayload)
    case _ => None
  }

  /** What the ledger l says to a call of the buyer. */
  function BuyerRefused(b: Buyer, cfg: Config, l: E.Ledger): Result<E.Ledger, E.EscrowError>
    requires b.escrow.Some?
  {
    if b.pc == BDeposit then E.Deposited(l, E.EscrowRef("memory", b.escrow.value), cfg.price)
    else E.Approved(l, E.EscrowRef("memory", b.escrow.value), b.invoiced)
  }

  /** The error e is why the buyer came to stand at d, having heard what is gone from the inbox. */
  ghost predicate BuyerBlames(before: seq<Turn>, d: Conf<Buyer>, cfg: Config, e: CommerceError)
  {
    var b, said := d.party, ErrorOf(LastHeard(before, d.inbox));
    match e
    case InvalidConfig => false
    case EscrowFailed(x) =>
      && b.pc in {BDeposit, BApprove} && b.escrow.Some? && d.left != []
      && BuyerRefused(b, cfg, d.left[|d.left| - 1].ledger) == Err(x)
    case NotAccepted => b.pc == BAwaitResponse && b.state == A.Requested && said == None
    case TransitionRefused => b.state != BuyerState(b.pc) && (BuyerWaits(b.pc) ==> said == None)
    case _ => BuyerWaits(b.pc) && said == Some(e)
  }

  lemma {:induction false} BuyerHeardSome(c: Conf<Buyer>, cfg: Config, goal: BuyerPc)
    ensures |BuyerCode(c, cfg, goal).inbox| <= |c.inbox|
    decreases |c.worlds| + |c.inbox|
  {
    if BuyerDone(c.party, goal) || (if BuyerWaits(c.party.pc) then c.inbox == [] else c.worlds == []) {
    } else if BuyerWaits(c.party.pc) {
      BuyerHeardSome(c.(party := BuyerHears(c.party, cfg, c.inbox[0]), inbox := c.inbox[1..]), cfg, goal);
    } else {
      var v := BuyerAct(BuyerAt(cfg, c.worlds[0], c.party));
      BuyerHeardSome(c.(party := v.buyer, worlds := c.worlds[1..], left := c.left + [SharedOf(v)]), cfg, goal);
    }
  }

  /** What is to blame once a message was heard is to blame from before it. */
  lemma BuyerBlamesStill(before: seq<Turn>, kind: Kind, rid: string, m: Msg, n: nat,
                         c: Conf<Buyer>, cfg: Config, goal: BuyerPc, e: CommerceError)
    requires IsAwaited(before, kind, rid, Got(m), n) && c.inbox == before[n..]
    requires BuyerBlames(c.inbox, BuyerCode(c, cfg, goal), cfg, e)
    ensures BuyerBlames(before, BuyerCode(c, cfg, goal), cfg, e)
  {
    BuyerHeardSome(c, cfg, goal);
  }

  class BuyerSession {
    const cfg: Config
    const machine: A.AgreementStateMachine
    const hash: E.Hash
    const escrowRef: E.EscrowRef

    constructor (cfg: Config, machine: A.AgreementStateMachine, hash: E.Hash, escrowRef: E.EscrowRef)
      ensures this.cfg == cfg && this.machine == machine && this.hash == hash && this.escrowRef == escrowRef
    {
      this.cfg, this.machine, this.hash, this.escrowRef := cfg, machine, hash, escrowRef;
    }

    /** The buyer of the step system when BuyerNegotiateAndFund has returned. */
    ghost function Standing(): Buyer
      reads machine
    {
      Buyer(BFunded, false, machine.state, Some(hash), Some(escrowRef.locator), E.Placeholder(""), None, {})
    }

    /** Settle is the buyer's part from FUNDED to settled; it returns when it gets there. */
    method Settle(env: Environment) returns (r: Call<()>)
      requires env.Valid() && machine.Valid() && escrowRef.binding == "memory"
      modifies machine`state, env, env.escrow, env.sellerStdIn, env.buyerStdIn
      ensures Settled(old(env.Facing(Standing())), r, env)
    {
      ghost var c := env.Facing(Standing());
      var ok := env.Meet();
      if !ok {
        BuyerRests(c, cfg, BSettled);
        return Blocked;
      }
      env.Leave();
      c := BuyerSubscribes(c, cfg, BSettled);
      ghost var waiting, before := c.party, c.inbox;
      var got, n := AwaitTypedPayload(env, KInvoice, cfg.rid);
      c := BuyerAwaited(c, cfg, BSettled, got, n);
      if !got.Got? {
        BuyerRests(c, cfg, BSettled);
        return if got == Waiting then Blocked else Failed(if got == Unparsable then BadPayload else NoAnswer);
      }
      r := TakeInvoice(env, got.m, waiting);
      if r.Failed? {
        BuyerBlamesStill(before, KInvoice, cfg.rid, got.m, n, c, cfg, BSettled, r.error);
      }
    }

    /** Settle with the invoice in hand. */
    method TakeInvoice(env: Environment, inv: Msg, ghost b: Buyer) returns (r: Call<()>)
      requires env.Valid() && machine.Valid() && escrowRef.binding == "memory"
      requires !b.failed && b.pc == BAwaitInvoice && b.state == machine.state && b.escrow == Some(escrowRef.locator)
      requires inv.Invoice? && Asked(cfg.rid, inv.rid)
      modifies machine`state, env, env.escrow, env.sellerStdIn, env.buyerStdIn
      ensures Settled(old(env.Facing(BuyerTakes(b, cfg, inv))), r, env)
    {
      BuyerTakesInvoice(b, cfg, inv);
      ghost var c := env.Facing(BuyerTakes(b, cfg, inv));
      if machine.state == A.Funded {
        var started := machine.Transition(A.DeliveryStarted);
      }
      var moved := machine.Transition(A.Invoice);
      if moved.Err? {
        BuyerRests(c, cfg, BSettled);
        return Failed(TransitionRefused);
      }
      r := ApproveRelease(env, inv.release, c.party);
    }

    /** How Settle, or its end, leaves the machine, the environment and the caller. */
    ghost predicate Settled(c: Conf<Buyer>, r: Call<()>, env: Environment)
      reads env, machine
    {
      var d := BuyerCode(c, cfg, BSettled);
      && env.Stands(d) && machine.state == d.party.state
      && (r.Returned? <==> !d.party.failed && d.party.pc == BSettled)
      && (r.Failed? <==> d.party.failed)
      && (r.Failed? ==> BuyerBlames(c.inbox, d, cfg, r.error))
    }

    /** The end of Settle: pay, then acknowledge. */
    method ApproveRelease(env: Environment, release: E.ReleaseRef, ghost b: Buyer) returns (r: Call<()>)
      requires env.Valid() && machine.Valid() && escrowRef.binding == "memory"
      requires !b.failed && b.pc == BApprove && b.state == machine.state && b.invoiced == release && b.escrow == Some(escrowRef.locator)
      modifies machine`state, env, env.escrow, env.sellerStdIn, env.buyerStdIn
      ensures Settled(old(env.Facing(b)), r, env)
    {
      ghost var c := env.Facing(b);
      var ok := env.Meet();
      if !ok {
        BuyerRests(c, cfg, BSettled);
        return Blocked;
      }
      c := BuyerApproves(c, cfg, BSettled);
      var released := env.escrow.ApproveRelease(escrowRef, release);
      env.Leave();
      if released.Err? {
        BuyerRests(c, cfg, BSettled);
        return Failed(EscrowFailed(released.error));
      }
      r := Acknowledge(env, release, c.party);
    }

    method Acknowledge(env: Environment, release: E.ReleaseRef, ghost b: Buyer) returns (r: Call<()>)
      requires env.Valid() && machine.Valid()
      requires !b.failed && b.pc == BAck && b.state == machine.state && b.invoiced == release
      modifies machine`state, env, env.escrow, env.sellerStdIn, env.buyerStdIn
      ensures Settled(old(env.Facing(b)), r, env)
    {
      ghost var c := env.Facing(b);
      var ok := env.Meet();
      if !ok {
        BuyerRests(c, cfg, BSettled);
        return Blocked;
      }
      c := BuyerPublishes(c, cfg, BSettled);
      BuyerRests(c, cfg, BSettled);
      env.sellerStdIn.Publish(Ack(cfg.rid, release, "approved"));
      env.Leave();
      var moved := machine.Transition(A.InvoiceApproved);
      return if moved.Ok? then Returned(()) else Failed(TransitionRefused);
    }
  }

  lemma BuyerTakesResponse(b: Buyer, cfg: Config, m: Msg)
    requires b.pc == BAwaitResponse && m.Response? && Asked(cfg.rid, m.rid)
    ensures m.action != "accept" ==> BuyerTakes(b, cfg, m) == b.(failed := true)
    ensures m.action == "accept" ==>
              BuyerTakes(b, cfg, m) == match A.Next(b.state, A.Accept)
                                       case None => b.(failed := true, hash := Some(cfg.hash(m)))
                                       case Some(t) => b.(state := t, pc := BCreate, hash := Some(cfg.hash(m)))
  {
    FireOne(b.state, A.Accept);
  }

  /** How BuyerNegotiateAndFund, or its end, leaves the environment and the caller. */
  ghost predicate Funded(c: Conf<Buyer>, cfg: Config, r: Call<BuyerSession>, env: Environment)
    reads env, if r.Returned? then {r.value.machine} else {}
  {
    var d := BuyerCode(c, cfg, BFunded);
    && env.Stands(d)
    && (r.Returned? <==> !d.party.failed && d.party.pc == BFunded)
    && (r.Failed? <==> d.party.failed)
    && (r.Failed? ==> BuyerBlames(c.inbox, d, cfg, r.error))
    && (r.Returned? ==>
          && r.value.cfg == cfg && r.value.machine.Valid() && r.value.escrowRef.binding == "memory"
          && r.value.Standing() == d.party)
  }

  /** The buyer's part up to FUNDED.  An incomplete configuration is refused before anything is done;
      otherwise the environment is left as the buyer's steps leave it, also when one of them fails, and
      the session that is returned stands where they lead. */
  method BuyerNegotiateAndFund(cfg: Config, env: Environment) returns (r: Call<BuyerSession>)
    requires env.Valid()
    modifies env, env.escrow, env.sellerStdIn, env.buyerStdIn
    ensures r == Failed(InvalidConfig) <==> cfg.rid == "" || cfg.buyerEVM == "" || cfg.sellerEVM == "" || cfg.currency == "" || cfg.price == ""
    ensures r == Failed(InvalidConfig) ==> env.Stands(old(env.Facing(BuyerAtStart()))) && env.Now() == old(env.Now())
    ensures r != Failed(InvalidConfig) ==> ValidBuyerConfig(cfg) && Funded(old(env.Facing(BuyerAtStart())), cfg, r, env)
    ensures r.Returned? ==> fresh(r.value) && fresh(r.value.machine)
  {
    if cfg.rid == "" || cfg.buyerEVM == "" || cfg.sellerEVM == "" || cfg.currency == "" || cfg.price == "" {
      return Failed(InvalidConfig);
    }
    var machine := new A.AgreementStateMachine(cfg.rid);
    ghost var c := env.Facing(BuyerAtStart());
    var ok := env.Meet();
    if !ok {
      BuyerRests(c, cfg, BFunded);
      return Blocked;
    }
    c := BuyerPublishes(c, cfg, BFunded);
    env.sellerStdIn.Publish(Request(cfg.rid, cfg.price, cfg.currency));
    env.Leave();
    assert env.Stands(c);
    var moved := machine.Transition(A.ServiceRequest);
    r := AwaitResponse(cfg, env, machine, c.party);
  }

  /** From the subscription to the seller's answer. */
  method AwaitResponse(cfg: Config, env: Environment, machine: A.AgreementStateMachine, ghost b: Buyer) returns (r: Call<BuyerSession>)
    requires env.Valid() && machine.Valid() && machine.state == A.Requested
    requires b == BuyerAtStart().(pc := BSubscribe, state := A.Requested)
    modifies machine`state, env, env.escrow, env.sellerStdIn, env.buyerStdIn
    ensures Funded(old(env.Facing(b)), cfg, r, env)
    ensures r.Returned? ==> fresh(r.value) && r.value.machine == machine
  {
    ghost var c := env.Facing(b);
    var ok := env.Meet();
    if !ok {
      BuyerRests(c, cfg, BFunded);
      return Blocked;
    }
    env.Leave();
    c := BuyerSubscribes(c, cfg, BFunded);
    ghost var waiting, before := c.party, c.inbox;
    var got, n := AwaitTypedPayload(env, KResponse, cfg.rid);
    c := BuyerAwaited(c, cfg, BFunded, got, n);
    if !got.Got? {
      BuyerRests(c, cfg, BFunded);
      return if got == Waiting then Blocked else Failed(if got == Unparsable then BadPayload else NoAnswer);
    }
    r := TakeResponse(cfg, env, machine, got.m, waiting);
    if r.Failed? {
      BuyerBlamesStill(before, KResponse, cfg.rid, got.m, n, c, cfg, BFunded, r.error);
    }
  }

  method TakeResponse(cfg: Config, env: Environment, machine: A.AgreementStateMachine, resp: Msg, ghost b: Buyer) returns (r: Call<BuyerSession>)
    requires env.Valid() && machine.Valid() && machine.state == A.Requested && resp.Response? && Asked(cfg.rid, resp.rid)
    requires b == BuyerAtStart().(pc := BAwaitResponse, state := A.Requested)
    modifies machine`state, env, env.escrow, env.sellerStdIn, env.buyerStdIn
    ensures Funded(old(env.Facing(BuyerTakes(b, cfg, resp))), cfg, r, env)
    ensures r.Returned? ==> fresh(r.value) && r.value.machine == machine
  {
    BuyerTakesResponse(b, cfg, resp);
    ghost var c := env.Facing(BuyerTakes(b, cfg, resp));
    if resp.action != "accept" {
      BuyerRests(c, cfg, BFunded);
      return Failed(NotAccepted);
    }
    var moved := machine.Transition(A.Accept);
    r := OpenEscrow(cfg, env, machine, cfg.hash(resp), c.party);
  }

  method OpenEscrow(cfg: Config, env: Environment, machine: A.AgreementStateMachine, hash: E.Hash, ghost b: Buyer)
    returns (r: Call<BuyerSession>)
    requires env.Valid() && machine.Valid() && machine.state == A.Agreed
    requires b == BuyerAtStart().(pc := BCreate, state := A.Agreed, hash := Some(hash))
    modifies machine`state, env, env.escrow, env.sellerStdIn, env.buyerStdIn
    ensures Funded(old(env.Facing(b)), cfg, r, env)
    ensures r.Returned? ==> fresh(r.value) && r.value.machine == machine
  {
    ghost var c := env.Facing(b);
    var ok := env.Meet();
    if !ok {
      BuyerRests(c, cfg, BFunded);
      return Blocked;
    }
    c := BuyerCreates(c, cfg, BFunded);
    var escrowRef := env.escrow.CreateEscrow(cfg.buyerEVM, cfg.sellerEVM, cfg.currency, hash, cfg.timeout);
    env.Leave();
    assert env.Stands(c);
    r := DepositPrice(cfg, env, machine, hash, escrowRef, c.party);
  }

  method DepositPrice(cfg: Config, env: Environment, machine: A.AgreementStateMachine, hash: E.Hash, escrowRef: E.EscrowRef, ghost b: Buyer)
    returns (r: Call<BuyerSession>)
    requires env.Valid() && machine.Valid() && machine.state == A.Agreed && escrowRef.binding == "memory"
    requires b == BuyerAtStart().(pc := BDeposit, state := A.Agreed, hash := Some(hash), escrow := Some(escrowRef.locator))
    modifies machine`state, env, env.escrow, env.sellerStdIn, env.buyerStdIn
    ensures Funded(old(env.Facing(b)), cfg, r, env)
    ensures r.Returned? ==> fresh(r.value) && r.value.machine == machine
  {
    ghost var c := env.Facing(b);
    var ok := env.Meet();
    if !ok {
      BuyerRests(c, cfg, BFunded);
      return Blocked;
    }
    c := BuyerDeposits(c, cfg, BFunded);
    var deposited := env.escrow.Deposit(escrowRef, cfg.price);
    env.Leave();
    if deposited.Err? {
      BuyerRests(c, cfg, BFunded);
      return Failed(EscrowFailed(deposited.error));
    }
    r := AnnounceEscrow(cfg, env, machine, hash, escrowRef, c.party);
  }

  method AnnounceEscrow(cfg: Config, env: Environment, machine: A.AgreementStateMachine, hash: E.Hash, escrowRef: E.EscrowRef, ghost b: Buyer)
    returns (r: Call<BuyerSession>)
    requires env.Valid() && machine.Valid() && machine.state == A.Agreed && escrowRef.binding == "memory"
    requires b == BuyerAtStart().(pc := BPublishCreated, state := A.Agreed, hash := Some(hash), escrow := Some(escrowRef.locator))
    modifies machine`state, env, env.escrow, env.sellerStdIn, env.buyerStdIn
    ensures Funded(old(env.Facing(b)), cfg, r, env)
    ensures r.Returned? ==> fresh(r.value) && r.value.machine == machine
  {
    ghost var c := env.Facing(b);
    var ok := env.Meet();
    if !ok {
      BuyerRests(c, cfg, BFunded);
      return Blocked;
    }
    c := BuyerPublishes(c, cfg, BFunded);
    BuyerRests(c, cfg, BFunded);
    env.sellerStdIn.Publish(Created(cfg.rid, escrowRef.locator, cfg.price, cfg.currency));
    env.Leave();
    var moved := machine.Transition(A.EscrowCreated);
    var session := new BuyerSession(cfg, machine, hash, escrowRef);
    return Returned(session);
  }

  // ----- the seller on its own

  function SellerAt(cfg: Config, s: Shared, p: Seller): World
  {
    World(cfg, s.ledger, s.toSeller, s.toBuyer, BuyerAtStart(), p)
  }

  function SellerAwaits(pc: SellerPc): Option<Kind>
  {
    if pc == SAwaitRequest then Some(KRequest)
    else if pc == SAwaitCreated then Some(KCreated)
    else if pc == SAwaitAck then Some(KAck)
    else None
  }

  /** The first wait takes any request id. */
  function SellerAsks(s: Seller): string
  {
    if s.pc == SAwaitRequest then "" else s.rid
  }

  function SellerHears(s: Seller, t: Turn): Seller
  {
    match t
    case Expires => s.(failed := true)
    case Delivers(Carries(m)) => SellerTakes(s, m)
    case Delivers(BadBody(kind, rid)) => if SellerAwaits(s.pc) == Some(kind) && Asked(SellerAsks(s), rid) then s.(failed := true) else s
  }

  predicate SellerDone(s: Seller, goal: SellerPc)
  {
    s.failed || s.pc == goal || s.pc == SSettled
  }

  /** The steps of the seller until it is done, or has nothing more to meet or to hear. */
  ghost function SellerCode(c: Conf<Seller>, cfg: Config, goal: SellerPc): Conf<Seller>
    decreases |c.worlds| + |c.inbox|
  {
    if SellerDone(c.party, goal) then c
    else if SellerWaits(c.party.pc) then
      if c.inbox == [] then c
      else SellerCode(c.(party := SellerHears(c.party, c.inbox[0]), inbox := c.inbox[1..]), cfg, goal)
    else if c.worlds == [] then c
    else
      var v := SellerAct(SellerAt(cfg, c.worlds[0], c.party));
      SellerCode(c.(party := v.seller, worlds := c.worlds[1..], left := c.left + [SharedOf(v)]), cfg, goal)
  }

  lemma SellerRests(c: Conf<Seller>, cfg: Config, goal: SellerPc)
    requires SellerDone(c.party, goal) || (if SellerWaits(c.party.pc) then c.inbox == [] else c.worlds == [])
    ensures SellerCode(c, cfg, goal) == c
  {
  }

  lemma {:induction false} SellerSkips(c: Conf<Seller>, cfg: Config, goal: SellerPc, n: nat)
    requires !SellerDone(c.party, goal) && SellerAwaits(c.party.pc).Some? && n <= |c.inbox|
    requires forall i | 0 <= i < n :: Skipped(c.inbox[i], SellerAwaits(c.party.pc).value, SellerAsks(c.party))
    ensures SellerCode(c, cfg, goal) == SellerCode(c.(inbox := c.inbox[n..]), cfg, goal)
    decreases n
  {
    if n == 0 {
      assert c.inbox[0..] == c.inbox;
    } else {
      assert Skipped(c.inbox[0], SellerAwaits(c.party.pc).value, SellerAsks(c.party));
      assert SellerHears(c.party, c.inbox[0]) == c.party;
      var d := c.(inbox := c.inbox[1..]);
      assert c.inbox[1..][n - 1..] == c.inbox[n..];
      SellerSkips(d, cfg, goal, n - 1);
    }
  }

  lemma SellerAwaited(c: Conf<Seller>, cfg: Config, goal: SellerPc, r: Awaited, n: nat) returns (d: Conf<Seller>)
    requires !SellerDone(c.party, goal) && SellerAwaits(c.party.pc).Some?
    requires IsAwaited(c.inbox, SellerAwaits(c.party.pc).value, SellerAsks(c.party), r, n)
    ensures SellerCode(c, cfg, goal) == SellerCode(d, cfg, goal)
    ensures d == c.(party := d.party, inbox := c.inbox[n..])
    ensures d.party == match r
                       case Got(m) => SellerTakes(c.party, m)
                       case Waiting => c.party
                       case _ => c.party.(failed := true)
    ensures r.Got? ==> KindOf(r.m) == SellerAwaits(c.party.pc) && Asked(SellerAsks(c.party), r.m.rid)
    ensures r == Waiting ==> d.inbox == []
  {
    if r == Waiting {
      SellerSkips(c, cfg, goal, n);
      d := c.(inbox := c.inbox[n..]);
    } else {
      SellerSkips(c, cfg, goal, n - 1);
      assert c.inbox[n - 1..][1..] == c.inbox[n..];
      d := c.(party := SellerHears(c.party, c.inbox[n - 1]), inbox := c.inbox[n..]);
    }
  }

  lemma SellerSubscribes(c: Conf<Seller>, cfg: Config, goal: SellerPc) returns (d: Conf<Seller>)
    requires !SellerDone(c.party, goal) && c.party.pc in {SStart, SSubscribe} && c.worlds != []
    ensures SellerCode(c, cfg, goal) == SellerCode(d, cfg, goal)
    ensures d == Onward(c, c.party.(pc := if c.party.pc == SStart then SAwaitRequest else SAwaitAck, seen := {}), c.worlds[0])
  {
    var v := SellerAct(SellerAt(cfg, c.worlds[0], c.party));
    d := Onward(c, v.seller, SharedOf(v));
  }

  lemma SellerResponds(c: Conf<Seller>, cfg: Config, goal: SellerPc) returns (d: Conf<Seller>)
    requires !SellerDone(c.party, goal) && c.party.pc == SRespond && c.party.state == A.Requested && c.worlds != []
    ensures SellerCode(c, cfg, goal) == SellerCode(d, cfg, goal)
    ensures var resp := Response(c.party.rid, "accept");
            d == Onward(c, c.party.(state := A.Agreed, pc := SAwaitCreated, hash := Some(cfg.hash(resp))),
                        c.worlds[0].(toBuyer := c.worlds[0].toBuyer + [resp]))
  {
    FireOne(A.Requested, A.Accept);
    var v := SellerAct(SellerAt(cfg, c.worlds[0], c.party));
    d := Onward(c, v.seller, SharedOf(v));
  }

  lemma SellerDelivers(c: Conf<Seller>, cfg: Config, goal: SellerPc) returns (d: Conf<Seller>)
    requires !SellerDone(c.party, goal) && c.party.pc == SFunded && c.worlds != []
    ensures SellerCode(c, cfg, goal) == SellerCode(d, cfg, goal)
    ensures d == Onward(c, c.party.(state := if c.party.state == A.Funded then A.Active else c.party.state, pc := SRequestRelease), c.worlds[0])
  {
    FireOne(A.Funded, A.DeliveryStarted);
    var v := SellerAct(SellerAt(cfg, c.worlds[0], c.party));
    d := Onward(c, v.seller, SharedOf(v));
  }

  lemma SellerRequests(c: Conf<Seller>, cfg: Config, goal: SellerPc) returns (d: Conf<Seller>)
    requires !SellerDone(c.party, goal) && c.party.pc == SRequestRelease && c.party.hash.Some? && c.worlds != []
    ensures SellerCode(c, cfg, goal) == SellerCode(d, cfg, goal)
    ensures !cfg.SellerReleases() ==>
              d == Onward(c, c.party.(release := E.Placeholder(cfg.placeholder), pc := SPublishInvoice), c.worlds[0])
    ensures cfg.SellerReleases() ==>
              match E.Requested(c.worlds[0].ledger, E.EscrowRef(cfg.SellerBinding(), c.party.escrow), c.party.amount, cfg.recipient, c.party.hash.value)
              case Err(_) => d == Onward(c, c.party.(failed := true), c.worlds[0])
              case Ok(l) => d == Onward(c, c.party.(release := E.MemRelease(l.releaseID), pc := SPublishInvoice), c.worlds[0].(ledger := l))
  {
    var v := SellerAct(SellerAt(cfg, c.worlds[0], c.party));
    d := Onward(c, v.seller, SharedOf(v));
  }

  lemma SellerInvoices(c: Conf<Seller>, cfg: Config, goal: SellerPc) returns (d: Conf<Seller>)
    requires !SellerDone(c.party, goal) && c.party.pc == SPublishInvoice && c.worlds != []
    ensures SellerCode(c, cfg, goal) == SellerCode(d, cfg, goal)
    ensures var s := c.party;
            d == Onward(c, d.party, c.worlds[0].(toBuyer := c.worlds[0].toBuyer + [Invoice(s.rid, s.release, s.escrow, s.amount, s.currency)]))
    ensures d.party == match A.Next(c.party.state, A.Invoice)
                       case None => c.party.(failed := true)
                       case Some(t) => c.party.(state := t, pc := SSubscribe)
  {
    FireOne(c.party.state, A.Invoice);
    var v := SellerAct(SellerAt(cfg, c.worlds[0], c.party));
    d := Onward(c, v.seller, SharedOf(v));
  }

  /** A request starts a machine of its own. */
  lemma SellerTakesRequest(s: Seller, m: Msg)
    requires s.pc == SAwaitRequest && m.Request?
    ensures SellerTakes(s, m) == s.(state := A.Requested, pc := SRespond, rid := m.rid, amount := m.amount, currency := m.currency)
  {
    FireOne(A.Idle, A.ServiceRequest);
  }

  lemma SellerTakesCreated(s: Seller, m: Msg)
    requires s.pc == SAwaitCreated && s.state == A.Agreed && m.Created? && Asked(s.rid, m.rid)
    ensures SellerTakes(s, m) == s.(state := A.Funded, pc := SFunded, escrow := m.escrow)
  {
    FireOne(A.Agreed, A.EscrowCreated);
  }

  lemma SellerTakesAck(s: Seller, m: Msg)
    requires s.pc == SAwaitAck && !s.failed && m.Ack? && Asked(s.rid, m.rid)
    ensures var t := SellerTakes(s, m);
            && (m.action != "approved" ==> t.failed && t.state == A.Moved(s.state, A.InvoiceRefused))
            && (m.action == "approved" ==>
                  && t.state == A.Moved(s.state, A.InvoiceApproved)
                  && (t.failed <==> A.Next(s.state, A.InvoiceApproved) == None)
                  && (!t.failed ==> t.pc == SSettled))
  {
    FireOne(s.state, A.InvoiceRefused);
    FireOne(s.state, A.InvoiceApproved);
  }

  // ----- the seller's code

  ghost function SellerRefused(s: Seller, cfg: Config, l: E.Ledger): Result<E.Ledger, E.EscrowError>
    requires s.hash.Some?
  {
    E.Requested(l, E.EscrowRef(cfg.SellerBinding(), s.escrow), s.amount, cfg.recipient, s.hash.value)
  }

  /** The error e is why the seller came to stand at d, having heard what is gone from the inbox. */
  ghost predicate SellerBlames(before: seq<Turn>, d: Conf<Seller>, cfg: Config, e: CommerceError)
  {
    var s, last := d.party, LastHeard(before, d.inbox);
    match e
    case InvalidConfig => false
    case EscrowFailed(x) =>
      && s.pc == SRequestRelease && s.hash.Some? && d.left != []
      && SellerRefused(s, cfg, d.left[|d.left| - 1].ledger) == Err(x)
    case NotAccepted => s.pc == SAwaitAck && Answers(last, "approved", false)
    case TransitionRefused => s.state != SellerState(s.pc) && (SellerWaits(s.pc) ==> Answers(last, "approved", true))
    case _ => SellerWaits(s.pc) && ErrorOf(last) == Some(e)
  }

  /** The turn is an acknowledgement, with this action or with another one. */
  predicate Answers(last: Option<Turn>, action: string, equal: bool)
  {
    && last.Some? && last.value.Delivers? && last.value.d.Carries?
    && last.value.d.m.Ack? && (last.value.d.m.action == action <==> equal)
  }

  lemma {:induction false} SellerHeardSome(c: Conf<Seller>, cfg: Config, goal: SellerPc)
    ensures |SellerCode(c, cfg, goal).inbox| <= |c.inbox|
    decreases |c.worlds| + |c.inbox|
  {
    if SellerDone(c.party, goal) || (if SellerWaits(c.party.pc) then c.inbox == [] else c.worlds == []) {
    } else if SellerWaits(c.party.pc) {
      SellerHeardSome(c.(party := SellerHears(c.party, c.inbox[0]), inbox := c.inbox[1..]), cfg, goal);
    } else {
      var v := SellerAct(SellerAt(cfg, c.worlds[0], c.party));
      SellerHeardSome(c.(party := v.seller, worlds := c.worlds[1..], left := c.left + [SharedOf(v)]), cfg, goal);
    }
  }

  lemma SellerBlamesStill(before: seq<Turn>, kind: Kind, rid: string, m: Msg, n: nat,
                          c: Conf<Seller>, cfg: Config, goal: SellerPc, e: CommerceError)
    requires IsAwaited(before, kind, rid, Got(m), n) && c.inbox == before[n..]
    requires SellerBlames(c.inbox, SellerCode(c, cfg, goal), cfg, e)
    ensures SellerBlames(before, SellerCode(c, cfg, goal), cfg, e)
  {
    SellerHeardSome(c, cfg, goal);
  }

  class SellerSession {
    const cfg: Config
    const machine: A.AgreementStateMachine
    const hash: E.Hash
    const requestId: string
    const amount: string
    const currency: string
    const escrowRef: nat
    const binding: string

    constructor (cfg: Config, machine: A.AgreementStateMachine, hash: E.Hash, request: Msg, escrowRef: nat, binding: string)
      requires request.Request?
      ensures this.cfg == cfg && this.machine == machine
      ensures this.hash == hash && this.escrowRef == escrowRef && this.binding == binding
      ensures requestId == request.rid && amount == request.amount && currency == request.currency
    {
      this.cfg, this.machine, this.hash, this.escrowRef, this.binding := cfg, machine, hash, escrowRef, binding;
      requestId, amount, currency := request.rid, request.amount, request.currency;
    }

    /** The seller of the step system when SellerObserveAndAccept has returned. */
    ghost function Standing(): Seller
      reads machine
    {
      Seller(SFunded, false, machine.state, Some(hash), requestId, amount, currency, escrowRef, E.Placeholder(""), {})
    }

    /** How IssueInvoice, or its end, leaves the machine, the environment and the caller. */
    ghost predicate Settled(c: Conf<Seller>, r: Call<()>, env: Environment)
      reads env, machine
    {
      var d := SellerCode(c, cfg, SSettled);
      && env.Stands(d) && machine.state == d.party.state
      && (r.Returned? <==> !d.party.failed && d.party.pc == SSettled)
      && (r.Failed? <==> d.party.failed)
      && (r.Failed? ==> SellerBlames(c.inbox, d, cfg, r.error))
    }

    /** IssueInvoice is the seller's part from FUNDED to settled: the request for release comes
        before the invoice that names it, and it returns when the approval was acknowledged. */
    method IssueInvoice(env: Environment, escrow: E.MemoryEscrow?) returns (r: Call<()>)
      requires env.Valid() && machine.Valid() && binding == cfg.SellerBinding()
      requires (escrow == null || escrow == env.escrow) && (cfg.sellerHasEscrow <==> escrow != null)
      modifies machine`state, env, env.escrow, env.sellerStdIn, env.buyerStdIn
      ensures Settled(old(env.Facing(Standing())), r, env)
    {
      ghost var c := env.Facing(Standing());
      var ok := env.Meet();
      if !ok {
        SellerRests(c, cfg, SSettled);
        return Blocked;
      }
      c := SellerDelivers(c, cfg, SSettled);
      StartDelivery();
      env.Leave();
      assert env.Stands(c);
      r := RequestRelease(env, escrow, c.party);
    }

    /** FUNDED becomes ACTIVE; any other state is left to the next transition. */
    method StartDelivery()
      requires machine.Valid()
      modifies machine`state
      ensures machine.Valid()
      ensures machine.state == if old(machine.state) == A.Funded then A.Active else old(machine.state)
    {
      if machine.state == A.Funded {
        var started := machine.Transition(A.DeliveryStarted);
      }
    }

    method RequestRelease(env: Environment, escrow: E.MemoryEscrow?, ghost s: Seller) returns (r: Call<()>)
      requires env.Valid() && machine.Valid() && binding == cfg.SellerBinding()
      requires (escrow == null || escrow == env.escrow) && (cfg.sellerHasEscrow <==> escrow != null)
      requires !s.failed && s.pc == SRequestRelease && s.state == machine.state && s.hash == Some(hash)
      requires s.rid == requestId && s.amount == amount && s.currency == currency && s.escrow == escrowRef
      modifies machine`state, env, env.escrow, env.sellerStdIn, env.buyerStdIn
      ensures Settled(old(env.Facing(s)), r, env)
    {
      ghost var c := env.Facing(s);
      var ok := env.Meet();
      if !ok {
        SellerRests(c, cfg, SSettled);
        return Blocked;
      }
      c := SellerRequests(c, cfg, SSettled);
      var releaseRef := E.Placeholder(cfg.placeholder);
      if escrow != null && cfg.recipient != "" {
        var requested := escrow.RequestRelease(E.EscrowRef(binding, escrowRef), amount, cfg.recipient, hash);
        if requested.Err? {
          env.Leave();
          SellerRests(c, cfg, SSettled);
          return Failed(EscrowFailed(requested.error));
        }
        releaseRef := requested.value;
      }
      env.Leave();
      assert env.Stands(c);
      r := PublishInvoice(env, releaseRef, c.party);
    }

    method PublishInvoice(env: Environment, releaseRef: E.ReleaseRef, ghost s: Seller) returns (r: Call<()>)
      requires env.Valid() && machine.Valid()
      requires !s.failed && s.pc == SPublishInvoice && s.state == machine.state && s.release == releaseRef
      requires s.rid == requestId && s.amount == amount && s.currency == currency && s.escrow == escrowRef
      modifies machine`state, env, env.escrow, env.sellerStdIn, env.buyerStdIn
      ensures Settled(old(env.Facing(s)), r, env)
    {
      ghost var c := env.Facing(s);
      var ok := env.Meet();
      if !ok {
        SellerRests(c, cfg, SSettled);
        return Blocked;
      }
      c := SellerInvoices(c, cfg, SSettled);
      env.buyerStdIn.Publish(Invoice(requestId, releaseRef, escrowRef, amount, currency));
      env.Leave();
      var moved := machine.Transition(A.Invoice);
      if moved.Err? {
        SellerRests(c, cfg, SSettled);
        return Failed(TransitionRefused);
      }
      r := AwaitAck(env, c.party);
    }

    method AwaitAck(env: Environment, ghost s: Seller) returns (r: Call<()>)
      requires env.Valid() && machine.Valid()
      requires !s.failed && s.pc == SSubscribe && s.state == machine.state && s.rid == requestId
      modifies machine`state, env, env.escrow, env.sellerStdIn, env.buyerStdIn
      ensures Settled(old(env.Facing(s)), r, env)
    {
      ghost var c := env.Facing(s);
      var ok := env.Meet();
      if !ok {
        SellerRests(c, cfg, SSettled);
        return Blocked;
      }
      env.Leave();
      c := SellerSubscribes(c, cfg, SSettled);
      r := HearAck(env, c.party);
    }

    method HearAck(env: Environment, ghost s: Seller) returns (r: Call<()>)
      requires machine.Valid()
      requires !s.failed && s.pc == SAwaitAck && s.state == machine.state && s.rid == requestId
      modifies machine`state, env`inbox
      ensures Settled(old(env.Facing(s)), r, env)
    {
      ghost var c := env.Facing(s);
      var got, n := AwaitTypedPayload(env, KAck, requestId);
      c := SellerAwaited(c, cfg, SSettled, got, n);
      if !got.Got? {
        SellerRests(c, cfg, SSettled);
        return if got == Waiting then Blocked else Failed(if got == Unparsable then BadPayload else NoAnswer);
      }
      r := TakeAck(got.m, s);
      SellerRests(c, cfg, SSettled);
    }

    /** The end of IssueInvoice: only an approval settles. */
    method TakeAck(ack: Msg, ghost s: Seller) returns (r: Call<()>)
      requires machine.Valid() && ack.Ack? && Asked(s.rid, ack.rid)
      requires !s.failed && s.pc == SAwaitAck && s.state == machine.state
      modifies machine`state
      ensures machine.Valid()
      ensures var t := SellerTakes(s, ack);
              && machine.state == t.state && r != Blocked
              && (r.Returned? <==> !t.failed) && (r.Returned? <==> t.pc == SSettled)
      ensures r == Failed(NotAccepted) <==> ack.action != "approved"
      ensures r == Failed(NotAccepted) && old(machine.state) == A.Invoiced ==> machine.state == A.Terminated
      ensures r == Failed(TransitionRefused) <==> ack.action == "approved" && old(machine.state) != A.Invoiced
      ensures r.Failed? ==> r.error in {NotAccepted, TransitionRefused}
    {
      SellerTakesAck(s, ack);
      if ack.action != "approved" {
        var refused := machine.Transition(A.InvoiceRefused);
        return Failed(NotAccepted);
      }
      var moved := machine.Transition(A.InvoiceApproved);
      return if moved.Ok? then Returned(()) else Failed(TransitionRefused);
    }
  }

  /** How SellerObserveAndAccept, or its end, leaves the environment and the caller. */
  ghost predicate Accepted(c: Conf<Seller>, cfg: Config, r: Call<SellerSession>, env: Environment)
    reads env, if r.Returned? then {r.value.machine} else {}
  {
    var d := SellerCode(c, cfg, SFunded);
    && env.Stands(d)
    && (r.Returned? <==> !d.party.failed && d.party.pc == SFunded)
    && (r.Failed? <==> d.party.failed)
    && (r.Failed? ==> SellerBlames(c.inbox, d, cfg, r.error))
    && (r.Returned? ==>
          && r.value.cfg == cfg && r.value.machine.Valid() && r.value.binding == cfg.SellerBinding()
          && r.value.Standing() == d.party)
  }

  /** The seller's part up to FUNDED; both waits share one subscription. */
  method SellerObserveAndAccept(cfg: Config, env: Environment, escrow: E.MemoryEscrow?) returns (r: Call<SellerSession>)
    requires env.Valid() && (cfg.sellerHasEscrow <==> escrow != null)
    modifies env, env.escrow, env.sellerStdIn, env.buyerStdIn
    ensures Accepted(old(env.Facing(SellerAtStart())), cfg, r, env)
    ensures r.Returned? ==> fresh(r.value) && fresh(r.value.machine)
  {
    ghost var c := env.Facing(SellerAtStart());
    var ok := env.Meet();
    if !ok {
      SellerRests(c, cfg, SFunded);
      return Blocked;
    }
    env.Leave();
    c := SellerSubscribes(c, cfg, SFunded);
    ghost var waiting, before := c.party, c.inbox;
    var got, n := AwaitTypedPayload(env, KRequest, "");
    c := SellerAwaited(c, cfg, SFunded, got, n);
    if !got.Got? {
      SellerRests(c, cfg, SFunded);
      return if got == Waiting then Blocked else Failed(if got == Unparsable then BadPayload else NoAnswer);
    }
    SellerTakesRequest(waiting, got.m);
    var machine := new A.AgreementStateMachine(got.m.rid);
    var moved := machine.Transition(A.ServiceRequest);
    r := RespondAndAwait(cfg, env, escrow, machine, got.m, c.party);
    if r.Failed? {
      SellerBlamesStill(before, KRequest, "", got.m, n, c, cfg, SFunded, r.error);
    }
  }

  /** From the answer to a request to the escrow it leads to. */
  method RespondAndAwait(cfg: Config, env: Environment, escrow: E.MemoryEscrow?, machine: A.AgreementStateMachine, req: Msg, ghost s: Seller)
    returns (r: Call<SellerSession>)
    requires env.Valid() && machine.Valid() && machine.state == A.Requested && req.Request? && (cfg.sellerHasEscrow <==> escrow != null)
    requires s == SellerAtStart().(pc := SRespond, state := A.Requested, rid := req.rid, amount := req.amount, currency := req.currency)
    modifies machine`state, env, env.escrow, env.sellerStdIn, env.buyerStdIn
    ensures Accepted(old(env.Facing(s)), cfg, r, env)
    ensures r.Returned? ==> fresh(r.value) && r.value.machine == machine
  {
    ghost var c := env.Facing(s);
    var ok := env.Meet();
    if !ok {
      SellerRests(c, cfg, SFunded);
      return Blocked;
    }
    var resp := Response(req.rid, "accept");
    c := SellerResponds(c, cfg, SFunded);
    env.buyerStdIn.Publish(resp);
    env.Leave();
    assert env.Stands(c);
    var moved := machine.Transition(A.Accept);
    r := AwaitCreated(cfg, env, escrow, machine, req, cfg.hash(resp), c.party);
  }

  method AwaitCreated(cfg: Config, env: Environment, escrow: E.MemoryEscrow?, machine: A.AgreementStateMachine, req: Msg, hash: E.Hash, ghost s: Seller)
    returns (r: Call<SellerSession>)
    requires machine.Valid() && machine.state == A.Agreed && req.Request? && (cfg.sellerHasEscrow <==> escrow != null)
    requires s == SellerAtStart().(pc := SAwaitCreated, state := A.Agreed, rid := req.rid, amount := req.amount, currency := req.currency,
                                   hash := Some(hash))
    modifies machine`state, env`inbox
    ensures Accepted(old(env.Facing(s)), cfg, r, env)
    ensures r.Returned? ==> fresh(r.value) && r.value.machine == machine
  {
    ghost var c := env.Facing(s);
    var got, n := AwaitTypedPayload(env, KCreated, req.rid);
    c := SellerAwaited(c, cfg, SFunded, got, n);
    if got.Got? {
      SellerTakesCreated(s, got.m);
    }
    SellerRests(c, cfg, SFunded);
    if !got.Got? {
      return if got == Waiting then Blocked else Failed(if got == Unparsable then BadPayload else NoAnswer);
    }
    var moved := machine.Transition(A.EscrowCreated);
    var binding := FillInBinding(cfg, escrow);
    var session := new SellerSession(cfg, machine, hash, req, got.m.escrow, binding);
    return Returned(session);
  }

  /** The binding of the seller's escrow, or the default for what it has. */
  method FillInBinding(cfg: Config, escrow: E.MemoryEscrow?) returns (binding: string)
    requires cfg.sellerHasEscrow <==> escrow != null
    ensures binding == cfg.SellerBinding()
    ensures cfg.binding == "" ==> binding == if escrow == null then "memory" else "evm-escrow"
    ensures cfg.binding != "" ==> binding == cfg.binding
  {
    binding := cfg.binding;
    if binding == "" && escrow != null {
      binding := "evm-escrow";
    } else if binding == "" {
      binding := "memory";
    }
  }

  // ----- in every run of the step system each party is its code

  ghost predicate Moves(w: World, step: Step, v: World)
  {
    Enabled(w, step) && v == Apply(w, step)
  }

  /** The worlds that a run goes through. */
  ghost function Trace(w: World, steps: seq<Step>): (ws: seq<World>)
    requires IsRun(w, steps)
    ensures |ws| == |steps| + 1
    decreases |steps|
  {
    if steps == [] then [w] else [w] + Trace(Apply(w, steps[0]), steps[1..])
  }

  /** Each item leads to the next by its step, from item k on. */
  ghost predicate Chain<W(!new), S(!new)>(leads: (W, S, W) -> bool, ws: seq<W>, steps: seq<S>, k: nat)
    requires k <= |steps|
    decreases |steps| - k
  {
    |ws| == |steps| + 1 && (k == |steps| || (leads(ws[k], steps[k], ws[k + 1]) && Chain(leads, ws, steps, k + 1)))
  }

  lemma {:induction false} ChainLater<W(!new), S(!new)>(leads: (W, S, W) -> bool, w: W, ws: seq<W>, step: S, steps: seq<S>, k: nat)
    requires k <= |steps| && Chain(leads, ws, steps, k)
    ensures Chain(leads, [w] + ws, [step] + steps, k + 1)
    decreases |steps| - k
  {
    if k < |steps| {
      ChainLater(leads, w, ws, step, steps, k + 1);
    }
  }

  lemma {:induction false} ChainAt<W(!new), S(!new)>(leads: (W, S, W) -> bool, ws: seq<W>, steps: seq<S>, k: nat, i: nat)
    requires k <= i < |steps| && Chain(leads, ws, steps, k)
    ensures |ws| == |steps| + 1 && leads(ws[i], steps[i], ws[i + 1])
    decreases i - k
  {
    if k < i {
      ChainAt(leads, ws, steps, k + 1, i);
    }
  }

  ghost predicate Follows(ws: seq<World>, steps: seq<Step>)
  {
    Chain(Moves, ws, steps, 0)
  }

  lemma {:induction false} TraceFollows(w: World, steps: seq<Step>)
    requires IsRun(w, steps)
    ensures var ws := Trace(w, steps); ws[0] == w && ws[|steps|] == End(w, steps) && Follows(ws, steps)
    decreases |steps|
  {
    if steps != [] {
      var v := Apply(w, steps[0]);
      TraceFollows(v, steps[1..]);
      ChainLater(Moves, w, Trace(v, steps[1..]), steps[0], steps[1..], 0);
      assert [steps[0]] + steps[1..] == steps;
    }
  }

  lemma Regroup<T>(s: seq<T>, x: T, t: seq<T>)
    ensures (s + [x]) + t == s + ([x] + t)
  {
  }

  lemma EnabledAt(ws: seq<World>, steps: seq<Step>, i: nat)
    requires i < |steps| && Follows(ws, steps)
    ensures |ws| == |steps| + 1 && Enabled(ws[i], steps[i])
  {
    ChainAt(Moves, ws, steps, 0, i);
  }

  /** Induction over the steps of a run: a configuration that moves on without a change to what its
      code makes of it keeps that to the end. */
  lemma {:induction false} ToTheEnd<P(!new)>(n: nat, k: nat, c: Conf<P>, inv: (nat, Conf<P>) -> bool, next: (nat, Conf<P>) -> Conf<P>,
                             code: Conf<P> -> Conf<P>) returns (d: Conf<P>)
    requires k <= n && inv(k, c)
    requires forall i: nat, x | i < n && inv(i, x) :: inv(i + 1, next(i, x)) && code(x) == code(next(i, x))
    ensures inv(n, d) && code(c) == code(d)
    decreases n - k
  {
    if k == n {
      d := c;
    } else {
      d := ToTheEnd(n, k + 1, next(k, c), inv, next, code);
    }
  }

  // The buyer.

  /** The shared objects as its calls find them in the run from step k on, and as they leave them. */
  function BuyerMeets(ws: seq<World>, steps: seq<Step>, k: nat): seq<Shared>
    requires |ws| == |steps| + 1 && k <= |steps|
    decreases |steps| - k
  {
    if k == |steps| then []
    else (if steps[k] == BuyerStep then [SharedOf(ws[k])] else []) + BuyerMeets(ws, steps, k + 1)
  }

  function BuyerLeaves(ws: seq<World>, steps: seq<Step>, k: nat): seq<Shared>
    requires |ws| == |steps| + 1 && k <= |steps|
    decreases |steps| - k
  {
    if k == |steps| then []
    else (if steps[k] == BuyerStep then [SharedOf(ws[k + 1])] else []) + BuyerLeaves(ws, steps, k + 1)
  }

  /** What it hears in a step of the run. */
  function BuyerTurn(w: World, step: Step): seq<Turn>
  {
    match step
    case BuyerReceive(i) => if i < |w.toBuyer| then [Delivers(Carries(w.toBuyer[i]))] else []
    case BuyerTimeout => [Expires]
    case _ => []
  }

  function BuyerInbox(ws: seq<World>, steps: seq<Step>, k: nat): seq<Turn>
    requires |ws| == |steps| + 1 && k <= |steps|
    decreases |steps| - k
  {
    if k == |steps| then [] else BuyerTurn(ws[k], steps[k]) + BuyerInbox(ws, steps, k + 1)
  }

  /** The code does not keep track of which messages its channel has delivered. */
  predicate SameBuyer(a: Buyer, b: Buyer)
  {
    a == b.(seen := a.seen)
  }

  /** A step of it depends on nothing but itself and what is shared. */
  lemma BuyerActsLocally(w: World, v: World, b: Buyer)
    requires Moves(w, BuyerStep, v) && SameBuyer(b, w.buyer)
    ensures var u := BuyerAct(BuyerAt(w.cfg, SharedOf(w), b));
            SameBuyer(u.buyer, v.buyer) && SharedOf(u) == SharedOf(v) && v.cfg == w.cfg
  {
  }

  lemma BuyerHearsLocally(w: World, step: Step, v: World, b: Buyer)
    requires Moves(w, step, v) && (step.BuyerReceive? || step == BuyerTimeout) && SameBuyer(b, w.buyer)
    ensures |BuyerTurn(w, step)| == 1 && SameBuyer(BuyerHears(b, w.cfg, BuyerTurn(w, step)[0]), v.buyer) && v.cfg == w.cfg
    ensures !b.failed && BuyerWaits(b.pc)
  {
  }

  lemma OthersLeaveBuyer(w: World, step: Step, v: World)
    requires Moves(w, step, v) && step != BuyerStep && !step.BuyerReceive? && step != BuyerTimeout
    ensures v.buyer == w.buyer && v.cfg == w.cfg && BuyerTurn(w, step) == []
  {
  }

  /** The configuration after a step of the run. */
  ghost function BuyerMoved(w: World, step: Step, c: Conf<Buyer>): Conf<Buyer>
  {
    if step == BuyerStep && c.worlds != [] then
      var u := BuyerAct(BuyerAt(w.cfg, c.worlds[0], c.party));
      Onward(c, u.buyer, SharedOf(u))
    else if (step.BuyerReceive? || step == BuyerTimeout) && c.inbox != [] then
      c.(party := BuyerHears(c.party, w.cfg, c.inbox[0]), inbox := c.inbox[1..])
    else c
  }

  /** One step of the run, whoever takes it: what it makes of the configuration. */
  lemma BuyerMovesAlong(w: World, step: Step, v: World, c: Conf<Buyer>)
    requires Moves(w, step, v) && SameBuyer(c.party, w.buyer)
    requires step == BuyerStep ==> c.worlds != [] && c.worlds[0] == SharedOf(w)
    requires BuyerTurn(w, step) != [] ==> c.inbox != [] && [c.inbox[0]] == BuyerTurn(w, step)
    ensures var d := BuyerMoved(w, step, c);
            && v.cfg == w.cfg && SameBuyer(d.party, v.buyer)
            && d.worlds == (if step == BuyerStep then c.worlds[1..] else c.worlds)
            && d.inbox == (if BuyerTurn(w, step) != [] then c.inbox[1..] else c.inbox)
            && d.left == (if step == BuyerStep then c.left + [SharedOf(v)] else c.left)
  {
    if step == BuyerStep {
      BuyerActsLocally(w, v, c.party);
    } else if step.BuyerReceive? || step == BuyerTimeout {
      BuyerHearsLocally(w, step, v, c.party);
    } else {
      OthersLeaveBuyer(w, step, v);
    }
  }

  /** And that its code goes the same way. */
  lemma BuyerCodeMovesAlong(w: World, step: Step, c: Conf<Buyer>)
    requires Enabled(w, step) && SameBuyer(c.party, w.buyer)
    ensures BuyerCode(c, w.cfg, BSettled) == BuyerCode(BuyerMoved(w, step, c), w.cfg, BSettled)
  {
  }

  ghost function BuyerNext(ws: seq<World>, steps: seq<Step>, k: nat, c: Conf<Buyer>): Conf<Buyer>
    requires |ws| == |steps| + 1
  {
    if k < |steps| then BuyerMoved(ws[k], steps[k], c) else c
  }

  /** Up to step k it is where its code gets to, and what it has left so far is what it left in the run. */
  ghost predicate BuyerAgrees(ws: seq<World>, steps: seq<Step>, cfg: Config, all: seq<Shared>, k: nat, c: Conf<Buyer>)
    requires |ws| == |steps| + 1
  {
    && k <= |steps| && ws[k].cfg == cfg && SameBuyer(c.party, ws[k].buyer)
    && c.worlds == BuyerMeets(ws, steps, k) && c.inbox == BuyerInbox(ws, steps, k)
    && c.left + BuyerLeaves(ws, steps, k) == all
  }

  /** What is to come of a run from step k on. */
  lemma BuyerAhead(ws: seq<World>, steps: seq<Step>, k: nat)
    requires k < |steps| && |ws| == |steps| + 1
    ensures var m := BuyerMeets(ws, steps, k);
            if steps[k] == BuyerStep then m != [] && m[0] == SharedOf(ws[k]) && m[1..] == BuyerMeets(ws, steps, k + 1)
            else m == BuyerMeets(ws, steps, k + 1)
    ensures var t, i := BuyerTurn(ws[k], steps[k]), BuyerInbox(ws, steps, k);
            if t != [] then i != [] && [i[0]] == t && i[1..] == BuyerInbox(ws, steps, k + 1) else i == BuyerInbox(ws, steps, k + 1)
  {
    if steps[k] == BuyerStep {
      ConsTail(SharedOf(ws[k]), BuyerMeets(ws, steps, k + 1));
    }
    if BuyerTurn(ws[k], steps[k]) != [] {
      ConsTail(BuyerTurn(ws[k], steps[k])[0], BuyerInbox(ws, steps, k + 1));
    }
  }

  lemma BuyerLeft(ws: seq<World>, steps: seq<Step>, k: nat, left: seq<Shared>)
    requires k < |steps| && |ws| == |steps| + 1
    ensures left + BuyerLeaves(ws, steps, k) ==
            (if steps[k] == BuyerStep then left + [SharedOf(ws[k + 1])] else left) + BuyerLeaves(ws, steps, k + 1)
  {
    if steps[k] == BuyerStep {
      Regroup(left, SharedOf(ws[k + 1]), BuyerLeaves(ws, steps, k + 1));
    }
  }

  lemma BuyerStaysAgreed(ws: seq<World>, steps: seq<Step>, cfg: Config, all: seq<Shared>, k: nat, c: Conf<Buyer>)
    requires k < |steps| && Follows(ws, steps) && BuyerAgrees(ws, steps, cfg, all, k, c)
    ensures BuyerAgrees(ws, steps, cfg, all, k + 1, BuyerNext(ws, steps, k, c))
  {
    ChainAt(Moves, ws, steps, 0, k);
    BuyerAhead(ws, steps, k);
    BuyerLeft(ws, steps, k, c.left);
    BuyerMovesAlong(ws[k], steps[k], ws[k + 1], c);
  }

  lemma BuyerCodeIsKept(ws: seq<World>, steps: seq<Step>, cfg: Config, all: seq<Shared>, k: nat, c: Conf<Buyer>)
    requires k < |steps| && |ws| == |steps| + 1 && Enabled(ws[k], steps[k]) && BuyerAgrees(ws, steps, cfg, all, k, c)
    ensures BuyerCode(c, cfg, BSettled) == BuyerCode(BuyerNext(ws, steps, k, c), cfg, BSettled)
  {
    BuyerCodeMovesAlong(ws[k], steps[k], c);
  }

  lemma BuyerComesToItsEnd(ws: seq<World>, steps: seq<Step>, cfg: Config, all: seq<Shared>, c: Conf<Buyer>) returns (d: Conf<Buyer>)
    requires |ws| == |steps| + 1 && Follows(ws, steps) && BuyerAgrees(ws, steps, cfg, all, 0, c)
    ensures BuyerAgrees(ws, steps, cfg, all, |steps|, d) && BuyerCode(c, cfg, BSettled) == BuyerCode(d, cfg, BSettled)
  {
    var inv := (k: nat, x: Conf<Buyer>) => BuyerAgrees(ws, steps, cfg, all, k, x);
    var next := (k: nat, x: Conf<Buyer>) => BuyerNext(ws, steps, k, x);
    var code := (x: Conf<Buyer>) => BuyerCode(x, cfg, BSettled);
    forall i: nat, x | i < |steps| && inv(i, x)
      ensures inv(i + 1, next(i, x)) && code(x) == code(next(i, x))
    {
      BuyerStaysAgreed(ws, steps, cfg, all, i, x);
      EnabledAt(ws, steps, i);
      BuyerCodeIsKept(ws, steps, cfg, all, i, x);
    }
    d := ToTheEnd(|steps|, 0, c, inv, next, code);
  }

  /** In every run it is where its code gets to on what it met and heard, has met and heard all of
      that, and what it left is what its code leaves. */
  lemma BuyerIsItsCode(ws: seq<World>, steps: seq<Step>, c: Conf<Buyer>)
    requires |ws| == |steps| + 1 && Follows(ws, steps) && SameBuyer(c.party, ws[0].buyer)
    requires c.worlds == BuyerMeets(ws, steps, 0) && c.inbox == BuyerInbox(ws, steps, 0)
    ensures var d := BuyerCode(c, ws[0].cfg, BSettled);
            && SameBuyer(d.party, ws[|steps|].buyer) && d.worlds == [] && d.inbox == []
            && d.left == c.left + BuyerLeaves(ws, steps, 0)
  {
    var cfg := ws[0].cfg;
    var all := c.left + BuyerLeaves(ws, steps, 0);
    var d := BuyerComesToItsEnd(ws, steps, cfg, all, c);
    BuyerEnds(ws, steps, cfg, all, d);
  }

  lemma BuyerEnds(ws: seq<World>, steps: seq<Step>, cfg: Config, all: seq<Shared>, d: Conf<Buyer>)
    requires |ws| == |steps| + 1 && BuyerAgrees(ws, steps, cfg, all, |steps|, d)
    ensures BuyerCode(d, cfg, BSettled) == d && d.worlds == [] && d.inbox == [] && d.left == all
  {
    BuyerRests(d, cfg, BSettled);
    assert d.left + [] == d.left;
  }

  /** Settle takes up where BuyerNegotiateAndFund has returned. */
  lemma {:induction false} BuyerCodeInTwo(c: Conf<Buyer>, cfg: Config)
    ensures BuyerCode(c, cfg, BSettled) == BuyerCode(BuyerCode(c, cfg, BFunded), cfg, BSettled)
    decreases |c.worlds| + |c.inbox|
  {
    if !BuyerDone(c.party, BFunded) {
      if BuyerWaits(c.party.pc) {
        if c.inbox != [] {
          BuyerCodeInTwo(c.(party := BuyerHears(c.party, cfg, c.inbox[0]), inbox := c.inbox[1..]), cfg);
        }
      } else if c.worlds != [] {
        var v := BuyerAct(BuyerAt(cfg, c.worlds[0], c.party));
        BuyerCodeInTwo(c.(party := v.buyer, worlds := c.worlds[1..], left := c.left + [SharedOf(v)]), cfg);
      }
    }
  }

  /** So in every run from the start it is BuyerNegotiateAndFund followed by Settle. */
  lemma BuyerRunsItsCode(cfg: Config, ledger: E.Ledger, steps: seq<Step>)
    requires IsRun(Init(cfg, ledger), steps)
    ensures var ws := Trace(Init(cfg, ledger), steps);
            var c := Conf(BuyerAtStart(), BuyerMeets(ws, steps, 0), BuyerInbox(ws, steps, 0), []);
            var d := BuyerCode(BuyerCode(c, cfg, BFunded), cfg, BSettled);
            && SameBuyer(d.party, End(Init(cfg, ledger), steps).buyer) && d.worlds == [] && d.inbox == []
            && d.left == BuyerLeaves(ws, steps, 0)
  {
    var ws := Trace(Init(cfg, ledger), steps);
    var c := Conf(BuyerAtStart(), BuyerMeets(ws, steps, 0), BuyerInbox(ws, steps, 0), []);
    TraceFollows(Init(cfg, ledger), steps);
    BuyerIsItsCode(ws, steps, c);
    BuyerCodeInTwo(c, cfg);
  }

  // The seller.

  /** The shared objects as its calls find them in the run from step k on, and as they leave them. */
  function SellerMeets(ws: seq<World>, steps: seq<Step>, k: nat): seq<Shared>
    requires |ws| == |steps| + 1 && k <= |steps|
    decreases |steps| - k
  {
    if k == |steps| then []
    else (if steps[k] == SellerStep then [SharedOf(ws[k])] else []) + SellerMeets(ws, steps, k + 1)
  }

  function SellerLeaves(ws: seq<World>, steps: seq<Step>, k: nat): seq<Shared>
    requires |ws| == |steps| + 1 && k <= |steps|
    decreases |steps| - k
  {
    if k == |steps| then []
    else (if steps[k] == SellerStep then [SharedOf(ws[k + 1])] else []) + SellerLeaves(ws, steps, k + 1)
  }

  /** What it hears in a step of the run. */
  function SellerTurn(w: World, step: Step): seq<Turn>
  {
    match step
    case SellerReceive(i) => if i < |w.toSeller| then [Delivers(Carries(w.toSeller[i]))] else []
    case SellerTimeout => [Expires]
    case _ => []
  }

  function SellerInbox(ws: seq<World>, steps: seq<Step>, k: nat): seq<Turn>
    requires |ws| == |steps| + 1 && k <= |steps|
    decreases |steps| - k
  {
    if k == |steps| then [] else SellerTurn(ws[k], steps[k]) + SellerInbox(ws, steps, k + 1)
  }

  /** The code does not keep track of which messages its channel has delivered. */
  predicate SameSeller(a: Seller, b: Seller)
  {
    a == b.(seen := a.seen)
  }

  /** A step of it depends on nothing but itself and what is shared. */
  lemma SellerActsLocally(w: World, v: World, s: Seller)
    requires Moves(w, SellerStep, v) && SameSeller(s, w.seller)
    ensures var u := SellerAct(SellerAt(w.cfg, SharedOf(w), s));
            SameSeller(u.seller, v.seller) && SharedOf(u) == SharedOf(v) && v.cfg == w.cfg
  {
  }

  lemma SellerHearsLocally(w: World, step: Step, v: World, s: Seller)
    requires Moves(w, step, v) && (step.SellerReceive? || step == SellerTimeout) && SameSeller(s, w.seller)
    ensures |SellerTurn(w, step)| == 1 && SameSeller(SellerHears(s, SellerTurn(w, step)[0]), v.seller) && v.cfg == w.cfg
    ensures !s.failed && SellerWaits(s.pc)
  {
  }

  lemma OthersLeaveSeller(w: World, step: Step, v: World)
    requires Moves(w, step, v) && step != SellerStep && !step.SellerReceive? && step != SellerTimeout
    ensures v.seller == w.seller && v.cfg == w.cfg && SellerTurn(w, step) == []
  {
  }

  /** The configuration after a step of the run. */
  ghost function SellerMoved(w: World, step: Step, c: Conf<Seller>): Conf<Seller>
  {
    if step == SellerStep && c.worlds != [] then
      var u := SellerAct(SellerAt(w.cfg, c.worlds[0], c.party));
      Onward(c, u.seller, SharedOf(u))
    else if (step.SellerReceive? || step == SellerTimeout) && c.inbox != [] then
      c.(party := SellerHears(c.party, c.inbox[0]), inbox := c.inbox[1..])
    else c
  }

  /** One step of the run, whoever takes it: what it makes of the configuration. */
  lemma SellerMovesAlong(w: World, step: Step, v: World, c: Conf<Seller>)
    requires Moves(w, step, v) && SameSeller(c.party, w.seller)
    requires step == SellerStep ==> c.worlds != [] && c.worlds[0] == SharedOf(w)
    requires SellerTurn(w, step) != [] ==> c.inbox != [] && [c.inbox[0]] == SellerTurn(w, step)
    ensures var d := SellerMoved(w, step, c);
            && v.cfg == w.cfg && SameSeller(d.party, v.seller)
            && d.worlds == (if step == SellerStep then c.worlds[1..] else c.worlds)
            && d.inbox == (if SellerTurn(w, step) != [] then c.inbox[1..] else c.inbox)
            && d.left == (if step == SellerStep then c.left + [SharedOf(v)] else c.left)
  {
    if step == SellerStep {
      SellerActsLocally(w, v, c.party);
    } else if step.SellerReceive? || step == SellerTimeout {
      SellerHearsLocally(w, step, v, c.party);
    } else {
      OthersLeaveSeller(w, step, v);
    }
  }

  /** And that its code goes the same way. */
  lemma SellerCodeMovesAlong(w: World, step: Step, c: Conf<Seller>)
    requires Enabled(w, step) && SameSeller(c.party, w.seller)
    ensures SellerCode(c, w.cfg, SSettled) == SellerCode(SellerMoved(w, step, c), w.cfg, SSettled)
  {
  }

  ghost function SellerNext(ws: seq<World>, steps: seq<Step>, k: nat, c: Conf<Seller>): Conf<Seller>
    requires |ws| == |steps| + 1
  {
    if k < |steps| then SellerMoved(ws[k], steps[k], c) else c
  }

  /** Up to step k it is where its code gets to, and what it has left so far is what it left in the run. */
  ghost predicate SellerAgrees(ws: seq<World>, steps: seq<Step>, cfg: Config, all: seq<Shared>, k: nat, c: Conf<Seller>)
    requires |ws| == |steps| + 1
  {
    && k <= |steps| && ws[k].cfg == cfg && SameSeller(c.party, ws[k].seller)
    && c.worlds == SellerMeets(ws, steps, k) && c.inbox == SellerInbox(ws, steps, k)
    && c.left + SellerLeaves(ws, steps, k) == all
  }

  /** What is to come of a run from step k on. */
  lemma SellerAhead(ws: seq<World>, steps: seq<Step>, k: nat)
    requires k < |steps| && |ws| == |steps| + 1
    ensures var m := SellerMeets(ws, steps, k);
            if steps[k] == SellerStep then m != [] && m[0] == SharedOf(ws[k]) && m[1..] == SellerMeets(ws, steps, k + 1)
            else m == SellerMeets(ws, steps, k + 1)
    ensures var t, i := SellerTurn(ws[k], steps[k]), SellerInbox(ws, steps, k);
            if t != [] then i != [] && [i[0]] == t && i[1..] == SellerInbox(ws, steps, k + 1) else i == SellerInbox(ws, steps, k + 1)
  {
    if steps[k] == SellerStep {
      ConsTail(SharedOf(ws[k]), SellerMeets(ws, steps, k + 1));
    }
    if SellerTurn(ws[k], steps[k]) != [] {
      ConsTail(SellerTurn(ws[k], steps[k])[0], SellerInbox(ws, steps, k + 1));
    }
  }

  lemma SellerLeft(ws: seq<World>, steps: seq<Step>, k: nat, left: seq<Shared>)
    requires k < |steps| && |ws| == |steps| + 1
    ensures left + SellerLeaves(ws, steps, k) ==
            (if steps[k] == SellerStep then left + [SharedOf(ws[k + 1])] else left) + SellerLeaves(ws, steps, k + 1)
  {
    if steps[k] == SellerStep {
      Regroup(left, SharedOf(ws[k + 1]), SellerLeaves(ws, steps, k + 1));
    }
  }

  lemma SellerStaysAgreed(ws: seq<World>, steps: seq<Step>, cfg: Config, all: seq<Shared>, k: nat, c: Conf<Seller>)
    requires k < |steps| && Follows(ws, steps) && SellerAgrees(ws, steps, cfg, all, k, c)
    ensures SellerAgrees(ws, steps, cfg, all, k + 1, SellerNext(ws, steps, k, c))
  {
    ChainAt(Moves, ws, steps, 0, k);
    SellerAhead(ws, steps, k);
    SellerLeft(ws, steps, k, c.left);
    SellerMovesAlong(ws[k], steps[k], ws[k + 1], c);
  }

  lemma SellerCodeIsKept(ws: seq<World>, steps: seq<Step>, cfg: Config, all: seq<Shared>, k: nat, c: Conf<Seller>)
    requires k < |steps| && |ws| == |steps| + 1 && Enabled(ws[k], steps[k]) && SellerAgrees(ws, steps, cfg, all, k, c)
    ensures SellerCode(c, cfg, SSettled) == SellerCode(SellerNext(ws, steps, k, c), cfg, SSettled)
  {
    SellerCodeMovesAlong(ws[k], steps[k], c);
  }

  lemma SellerComesToItsEnd(ws: seq<World>, steps: seq<Step>, cfg: Config, all: seq<Shared>, c: Conf<Seller>) returns (d: Conf<Seller>)
    requires |ws| == |steps| + 1 && Follows(ws, steps) && SellerAgrees(ws, steps, cfg, all, 0, c)
    ensures SellerAgrees(ws, steps, cfg, all, |steps|, d) && SellerCode(c, cfg, SSettled) == SellerCode(d, cfg, SSettled)
  {
    var inv := (k: nat, x: Conf<Seller>) => SellerAgrees(ws, steps, cfg, all, k, x);
    var next := (k: nat, x: Conf<Seller>) => SellerNext(ws, steps, k, x);
    var code := (x: Conf<Seller>) => SellerCode(x, cfg, SSettled);
    forall i: nat, x | i < |steps| && inv(i, x)
      ensures inv(i + 1, next(i, x)) && code(x) == code(next(i, x))
    {
      SellerStaysAgreed(ws, steps, cfg, all, i, x);
      EnabledAt(ws, steps, i);
      SellerCodeIsKept(ws, steps, cfg, all, i, x);
    }
    d := ToTheEnd(|steps|, 0, c, inv, next, code);
  }

  /** In every run it is where its code gets to on what it met and heard, has met and heard all of
      that, and what it left is what its code leaves. */
  lemma SellerIsItsCode(ws: seq<World>, steps: seq<Step>, c: Conf<Seller>)
    requires |ws| == |steps| + 1 && Follows(ws, steps) && SameSeller(c.party, ws[0].seller)
    requires c.worlds == SellerMeets(ws, steps, 0) && c.inbox == SellerInbox(ws, steps, 0)
    ensures var d := SellerCode(c, ws[0].cfg, SSettled);
            && SameSeller(d.party, ws[|steps|].seller) && d.worlds == [] && d.inbox == []
            && d.left == c.left + SellerLeaves(ws, steps, 0)
  {
    var cfg := ws[0].cfg;
    var all := c.left + SellerLeaves(ws, steps, 0);
    var d := SellerComesToItsEnd(ws, steps, cfg, all, c);
    SellerEnds(ws, steps, cfg, all, d);
  }

  lemma SellerEnds(ws: seq<World>, steps: seq<Step>, cfg: Config, all: seq<Shared>, d: Conf<Seller>)
    requires |ws| == |steps| + 1 && SellerAgrees(ws, steps, cfg, all, |steps|, d)
    ensures SellerCode(d, cfg, SSettled) == d && d.worlds == [] && d.inbox == [] && d.left == all
  {
    SellerRests(d, cfg, SSettled);
    assert d.left + [] == d.left;
  }

  /** IssueInvoice takes up where SellerObserveAndAccept has returned. */
  lemma {:induction false} SellerCodeInTwo(c: Conf<Seller>, cfg: Config)
    ensures SellerCode(c, cfg, SSettled) == SellerCode(SellerCode(c, cfg, SFunded), cfg, SSettled)
    decreases |c.worlds| + |c.inbox|
  {
    if !SellerDone(c.party, SFunded) {
      if SellerWaits(c.party.pc) {
        if c.inbox != [] {
          SellerCodeInTwo(c.(party := SellerHears(c.party, c.inbox[0]), inbox := c.inbox[1..]), cfg);
        }
      } else if c.worlds != [] {
        var v := SellerAct(SellerAt(cfg, c.worlds[0], c.party));
        SellerCodeInTwo(c.(party := v.seller, worlds := c.worlds[1..], left := c.left + [SharedOf(v)]), cfg);
      }
    }
  }

  /** So in every run from the start it is SellerObserveAndAccept followed by IssueInvoice. */
  lemma SellerRunsItsCode(cfg: Config, ledger: E.Ledger, steps: seq<Step>)
    requires IsRun(Init(cfg, ledger), steps)
    ensures var ws := Trace(Init(cfg, ledger), steps);
            var c := Conf(SellerAtStart(), SellerMeets(ws, steps, 0), SellerInbox(ws, steps, 0), []);
            var d := SellerCode(SellerCode(c, cfg, SFunded), cfg, SSettled);
            && SameSeller(d.party, End(Init(cfg, ledger), steps).seller) && d.worlds == [] && d.inbox == []
            && d.left == SellerLeaves(ws, steps, 0)
  {
    var ws := Trace(Init(cfg, ledger), steps);
    var c := Conf(SellerAtStart(), SellerMeets(ws, steps, 0), SellerInbox(ws, steps, 0), []);
    TraceFollows(Init(cfg, ledger), steps);
    SellerIsItsCode(ws, steps, c);
    SellerCodeInTwo(c, cfg);
  }

  /** Both pieces of code do get through together, in every configuration that can settle. */
  lemma CodeSettles(cfg: Config, ledger: E.Ledger) returns (steps: seq<Step>)
    requires ValidBuyerConfig(cfg) && E.Sound(ledger) && CanSettle(cfg)
    ensures IsRun(Init(cfg, ledger), steps)
    ensures var ws := Trace(Init(cfg, ledger), steps);
            var b := Conf(BuyerAtStart(), BuyerMeets(ws, steps, 0), BuyerInbox(ws, steps, 0), []);
            var s := Conf(SellerAtStart(), SellerMeets(ws, steps, 0), SellerInbox(ws, steps, 0), []);
            BuyerCode(b, cfg, BSettled).party.pc == BSettled && SellerCode(s, cfg, SSettled).party.pc == SSettled
  {
    steps := TheseSettle(cfg, ledger);
    var ws := Trace(Init(cfg, ledger), steps);
    TraceFollows(Init(cfg, ledger), steps);
    BuyerIsItsCode(ws, steps, Conf(BuyerAtStart(), BuyerMeets(ws, steps, 0), BuyerInbox(ws, steps, 0), []));
    SellerIsItsCode(ws, steps, Conf(SellerAtStart(), SellerMeets(ws, steps, 0), SellerInbox(ws, steps, 0), []));
  }
}
