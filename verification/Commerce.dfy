/**
 The commerce protocol between a buyer and a seller: BuyerNegotiateAndFund and Settle on one side,
 SellerObserveAndAccept and IssueInvoice on the other, over two topics of a replaying bus and one
 escrow ledger.

 The functions run concurrently, so the protocol is a step system.  Each party has a program
 counter that stops wherever the other party, the bus or the ledger can interleave; a step that
 publishes also makes the agreement transitions that follow it in the code, which no one else
 sees.  A subscription replays its topic from the start and promises no order, so a delivery step
 may pick any message of the topic that the subscription has not delivered yet.  Wired proves that
 the bus does no more, and, as long as no buffer overflows, no less than that.

 Around the two parties anything may happen that one session on a fresh topic pair allows:
 duplicates of messages already sent, messages of other types, messages of other requests,
 garbage, time-outs at every wait, and arbitrary operations on other escrow accounts.
 */
module Commerce {
  import opened Prelude
  import A = Agreement
  import E = Escrow

  // ----- messages

  datatype Msg =
    | Request(rid: string, amount: string, currency: string)
    | Response(rid: string, action: string)
    | Created(rid: string, escrow: nat, amount: string, currency: string)
    | Invoice(rid: string, release: E.ReleaseRef, escrow: nat, amount: string, currency: string)
    | Ack(rid: string, release: E.ReleaseRef, action: string)
    | Other(tag: string, rid: string)   // any other payload type
    | Garbage                           // bad signature or not JSON

  /** What the configuration of both sides fixes.  `hash` is keccak256 of a message's canonical JSON. */
  datatype Config = Config(
    rid: string, price: string, currency: string, buyerEVM: string, sellerEVM: string, timeout: nat,
    sellerHasEscrow: bool,     // SellerSessionConfig.Escrow != nil
    recipient: string,         // SellerSessionConfig.SellerEVM
    binding: string,           // SellerSessionConfig.EscrowBinding
    placeholder: string,       // the releaseRequestRef argument of IssueInvoice
    hash: Msg -> E.Hash)
  {
    /** escrowBinding as SellerObserveAndAccept fills it in. */
    function SellerBinding(): string {
      if binding != "" then binding else if sellerHasEscrow then "evm-escrow" else "memory"
    }

    predicate SellerReleases() {
      sellerHasEscrow && recipient != ""
    }

    function Accept(): Msg { Response(rid, "accept") }

    /** What both sides have to agree on. */
    function AgreementHash(): E.Hash { hash(Accept()) }
  }

  // ----- the parties

  datatype BuyerPc =
    | BStart | BSubscribe | BAwaitResponse | BCreate | BDeposit | BPublishCreated
    | BFunded | BAwaitInvoice | BApprove | BAck | BSettled

  datatype SellerPc =
    | SStart | SAwaitRequest | SRespond | SAwaitCreated | SFunded
    | SRequestRelease | SPublishInvoice | SSubscribe | SAwaitAck | SSettled

  datatype Buyer = Buyer(
    pc: BuyerPc, failed: bool, state: A.State, hash: Option<E.Hash>, escrow: Option<nat>,
    invoiced: E.ReleaseRef, released: Option<E.Release>, seen: set<nat>)

  datatype Seller = Seller(
    pc: SellerPc, failed: bool, state: A.State, hash: Option<E.Hash>, rid: string, amount: string, currency: string,
    escrow: nat, release: E.ReleaseRef, seen: set<nat>)

  datatype World = World(cfg: Config, ledger: E.Ledger, toSeller: seq<Msg>, toBuyer: seq<Msg>, buyer: Buyer, seller: Seller)

  function BRank(pc: BuyerPc): nat
  {
    match pc
    case BStart => 0
    case BSubscribe => 1
    case BAwaitResponse => 2
    case BCreate => 3
    case BDeposit => 4
    case BPublishCreated => 5
    case BFunded => 6
    case BAwaitInvoice => 7
    case BApprove => 8
    case BAck => 9
    case BSettled => 10
  }

  function SRank(pc: SellerPc): nat
  {
    match pc
    case SStart => 0
    case SAwaitRequest => 1
    case SRespond => 2
    case SAwaitCreated => 3
    case SFunded => 4
    case SRequestRelease => 5
    case SPublishInvoice => 6
    case SSubscribe => 7
    case SAwaitAck => 8
    case SSettled => 9
  }

  function Init(cfg: Config, ledger: E.Ledger): World
  {
    World(cfg, ledger, [], [],
          Buyer(BStart, false, A.Idle, None, None, E.Placeholder(""), None, {}),
          Seller(SStart, false, A.Idle, None, "", "", "", 0, E.Placeholder(""), {}))
  }

  // ----- steps

  datatype Step =
    | BuyerStep | BuyerReceive(i: nat) | BuyerTimeout
    | SellerStep | SellerReceive(i: nat) | SellerTimeout
    | Noise(toBuyer: bool, m: Msg)
    | Elsewhere(op: E.Op)

  predicate BuyerWaits(pc: BuyerPc)
  {
    pc == BAwaitResponse || pc == BAwaitInvoice
  }

  predicate SellerWaits(pc: SellerPc)
  {
    pc == SAwaitRequest || pc == SAwaitCreated || pc == SAwaitAck
  }

  /** A message that may appear on a topic without coming from this session. */
  predicate Harmless(log: seq<Msg>, m: Msg, rid: string)
  {
    m in log || m.Other? || m.Garbage? || (!m.Request? && m.rid != rid)
  }

  predicate OnOtherAccount(op: E.Op, account: Option<nat>)
  {
    op.Create? || op.SetClock? || (account.Some? ==> op.ref.locator != account.value)
  }

  predicate Enabled(w: World, step: Step)
  {
    match step
    case BuyerStep => !w.buyer.failed && !BuyerWaits(w.buyer.pc) && w.buyer.pc != BSettled
    case BuyerReceive(i) => !w.buyer.failed && BuyerWaits(w.buyer.pc) && i < |w.toBuyer| && i !in w.buyer.seen
    case BuyerTimeout => !w.buyer.failed && BuyerWaits(w.buyer.pc)
    case SellerStep => !w.seller.failed && !SellerWaits(w.seller.pc) && w.seller.pc != SSettled
    case SellerReceive(i) => !w.seller.failed && SellerWaits(w.seller.pc) && i < |w.toSeller| && i !in w.seller.seen
    case SellerTimeout => !w.seller.failed && SellerWaits(w.seller.pc)
    case Noise(toBuyer, m) => Harmless(if toBuyer then w.toBuyer else w.toSeller, m, w.cfg.rid)
    case Elsewhere(op) => OnOtherAccount(op, w.buyer.escrow)
  }

  /** Consecutive transitions, None when one of them is not allowed. */
  function Fire(s: A.State, events: seq<A.Event>): Option<A.State>
    decreases |events|
  {
    if events == [] then Some(s)
    else
      match A.Next(s, events[0])
      case None => None
      case Some(t) => Fire(t, events[1..])
  }

  function BuyerMoves(b: Buyer, events: seq<A.Event>, pc: BuyerPc): Buyer
  {
    match Fire(b.state, events)
    case None => b.(failed := true)
    case Some(t) => b.(state := t, pc := pc)
  }

  function SellerMoves(s: Seller, events: seq<A.Event>, pc: SellerPc): Seller
  {
    match Fire(s.state, events)
    case None => s.(failed := true)
    case Some(t) => s.(state := t, pc := pc)
  }

  /** FUNDED is promoted to ACTIVE first, other states are left to the next transition. */
  function Promote(s: A.State): seq<A.Event>
  {
    if s == A.Funded then [A.DeliveryStarted] else []
  }

  function Publish(w: World, toBuyer: bool, m: Msg): World
  {
    if toBuyer then w.(toBuyer := w.toBuyer + [m]) else w.(toSeller := w.toSeller + [m])
  }

  function Ref(w: World): E.EscrowRef
    requires w.buyer.escrow.Some?
  {
    E.EscrowRef("memory", w.buyer.escrow.value)
  }

  /** The steps of the buyer outside its waits.  Without an escrow reference there is none to use. */
  ghost function BuyerAct(w: World): World
  {
    var b, cfg := w.buyer, w.cfg;
    match b.pc
    case BStart =>
      Publish(w, false, Request(cfg.rid, cfg.price, cfg.currency)).(buyer := BuyerMoves(b, [A.ServiceRequest], BSubscribe))
    case BSubscribe => w.(buyer := b.(pc := BAwaitResponse, seen := {}))
    case BCreate =>
      if b.hash == None then w.(buyer := b.(failed := true)) else
      w.(ledger := E.NewAccount(w.ledger, cfg.buyerEVM, cfg.sellerEVM, cfg.currency, b.hash.value, cfg.timeout),
         buyer := b.(escrow := Some(w.ledger.nextID + 1), pc := BDeposit))
    case BDeposit =>
      if b.escrow == None then w.(buyer := b.(failed := true)) else
      (match E.Deposited(w.ledger, Ref(w), cfg.price)
       case Err(_) => w.(buyer := b.(failed := true))
       case Ok(l) => w.(ledger := l, buyer := b.(pc := BPublishCreated)))
    case BPublishCreated =>
      if b.escrow == None then w.(buyer := b.(failed := true)) else
      Publish(w, false, Created(cfg.rid, b.escrow.value, cfg.price, cfg.currency))
      .(buyer := BuyerMoves(b, [A.EscrowCreated], BFunded))
    case BFunded => w.(buyer := b.(pc := BAwaitInvoice, seen := {}))
    case BApprove =>
      if b.escrow == None then w.(buyer := b.(failed := true)) else
      (match E.Approved(w.ledger, Ref(w), b.invoiced)
       case Err(_) => w.(buyer := b.(failed := true))
       case Ok(l) =>
         var p := w.ledger.escrows[b.escrow.value].releases[b.invoiced.n];
         w.(ledger := l, buyer := b.(released := Some(E.Release(p.amount, p.recipient)), pc := BAck)))
    case BAck =>
      Publish(w, false, Ack(cfg.rid, b.invoiced, "approved")).(buyer := BuyerMoves(b, [A.InvoiceApproved], BSettled))
    case _ => w
  }

  /** A wait for an empty request id takes any. */
  predicate Asked(want: string, rid: string)
  {
    want == "" || rid == want
  }

  /** What validateBuyerCfg insists on. */
  predicate ValidBuyerConfig(cfg: Config)
  {
    cfg.rid != "" && cfg.buyerEVM != "" && cfg.sellerEVM != "" && cfg.currency != "" && cfg.price != ""
  }

  /** awaitTypedPayload of the buyer taking message m. */
  function BuyerTakes(b: Buyer, cfg: Config, m: Msg): Buyer
  {
    if b.pc == BAwaitResponse && m.Response? && Asked(cfg.rid, m.rid) then
      if m.action != "accept" then b.(failed := true)
      else BuyerMoves(b, [A.Accept], BCreate).(hash := Some(cfg.hash(m)))
    else if b.pc == BAwaitInvoice && m.Invoice? && Asked(cfg.rid, m.rid) then
      BuyerMoves(b, Promote(b.state) + [A.Invoice], BApprove).(invoiced := m.release)
    else b
  }

  ghost function SellerAct(w: World): World
  {
    var s, cfg := w.seller, w.cfg;
    match s.pc
    case SStart => w.(seller := s.(pc := SAwaitRequest, seen := {}))
    case SRespond =>
      var resp := Response(s.rid, "accept");
      Publish(w, true, resp).(seller := SellerMoves(s, [A.Accept], SAwaitCreated).(hash := Some(cfg.hash(resp))))
    case SFunded => w.(seller := SellerMoves(s, Promote(s.state), SRequestRelease))
    case SRequestRelease =>
      if !cfg.SellerReleases() then w.(seller := s.(release := E.Placeholder(cfg.placeholder), pc := SPublishInvoice))
      else if s.hash == None then w.(seller := s.(failed := true)) else
      (match E.Requested(w.ledger, E.EscrowRef(cfg.SellerBinding(), s.escrow), s.amount, cfg.recipient, s.hash.value)
       case Err(_) => w.(seller := s.(failed := true))
       case Ok(l) => w.(ledger := l, seller := s.(release := E.MemRelease(l.releaseID), pc := SPublishInvoice)))
    case SPublishInvoice =>
      Publish(w, true, Invoice(s.rid, s.release, s.escrow, s.amount, s.currency))
      .(seller := SellerMoves(s, [A.Invoice], SSubscribe))
    case SSubscribe => w.(seller := s.(pc := SAwaitAck, seen := {}))
    case _ => w
  }

  /** awaitTypedPayload of the seller; the first wait takes any request id. */
  function SellerTakes(s: Seller, m: Msg): Seller
  {
    if s.pc == SAwaitRequest && m.Request? then
      SellerMoves(s.(state := A.Idle), [A.ServiceRequest], SRespond).(rid := m.rid, amount := m.amount, currency := m.currency)
    else if s.pc == SAwaitCreated && m.Created? && Asked(s.rid, m.rid) then
      SellerMoves(s, [A.EscrowCreated], SFunded).(escrow := m.escrow)
    else if s.pc == SAwaitAck && m.Ack? && Asked(s.rid, m.rid) then
      if m.action != "approved" then SellerMoves(s, [A.InvoiceRefused], SAwaitAck).(failed := true)
      else SellerMoves(s, [A.InvoiceApproved], SSettled)
    else s
  }

  ghost function Apply(w: World, step: Step): World
    requires Enabled(w, step)
  {
    match step
    case BuyerStep => BuyerAct(w)
    case BuyerReceive(i) => w.(buyer := BuyerTakes(w.buyer.(seen := w.buyer.seen + {i}), w.cfg, w.toBuyer[i]))
    case BuyerTimeout => w.(buyer := w.buyer.(failed := true))
    case SellerStep => SellerAct(w)
    case SellerReceive(i) => w.(seller := SellerTakes(w.seller.(seen := w.seller.seen + {i}), w.toSeller[i]))
    case SellerTimeout => w.(seller := w.seller.(failed := true))
    case Noise(toBuyer, m) => Publish(w, toBuyer, m)
    case Elsewhere(op) => w.(ledger := E.Do(w.ledger, op))
  }

  // ----- the invariant

  /** The agreement state each party is in at each program counter. */
  function BuyerState(pc: BuyerPc): A.State
  {
    match pc
    case BStart => A.Idle
    case BSubscribe => A.Requested
    case BAwaitResponse => A.Requested
    case BCreate => A.Agreed
    case BDeposit => A.Agreed
    case BPublishCreated => A.Agreed
    case BFunded => A.Funded
    case BAwaitInvoice => A.Funded
    case BApprove => A.Invoiced
    case BAck => A.Invoiced
    case BSettled => A.Active
  }

  function SellerState(pc: SellerPc): A.State
  {
    match pc
    case SStart => A.Idle
    case SAwaitRequest => A.Idle
    case SRespond => A.Requested
    case SAwaitCreated => A.Agreed
    case SFunded => A.Funded
    case SRequestRelease => A.Active
    case SPublishInvoice => A.Active
    case SSubscribe => A.Invoiced
    case SAwaitAck => A.Invoiced
    case SSettled => A.Active
  }

  /** Who can be where: each party is ahead of the other only as far as its last message allows. */
  ghost predicate Causal(w: World)
  {
    var b, s := BRank(w.buyer.pc), SRank(w.seller.pc);
    && w.cfg.rid != ""
    && (s > 1 ==> b > 0)
    && (b > 2 ==> s > 2)
    && (s > 3 ==> b > 5)
    && (b > 7 ==> s > 6)
    && (s > 8 ==> b > 9)
  }

  /** What is on the topics under this request id was sent by the two parties, and only once they got there. */
  predicate SentToSeller(w: World, m: Msg)
  {
    var cfg, b := w.cfg, BRank(w.buyer.pc);
    && (m.Request? ==> b > 0 && m == Request(cfg.rid, cfg.price, cfg.currency))
    && (m.Created? && m.rid == cfg.rid ==>
          b > 5 && w.buyer.escrow.Some? && m == Created(cfg.rid, w.buyer.escrow.value, cfg.price, cfg.currency))
    && (m.Ack? && m.rid == cfg.rid ==> b > 9 && m == Ack(cfg.rid, w.buyer.invoiced, "approved"))
  }

  predicate SentToBuyer(w: World, m: Msg)
  {
    var cfg, s := w.cfg, SRank(w.seller.pc);
    && (m.Response? && m.rid == cfg.rid ==> s > 2 && m == cfg.Accept())
    && (m.Invoice? && m.rid == cfg.rid ==>
          s > 6 && m == Invoice(cfg.rid, w.seller.release, w.seller.escrow, cfg.price, cfg.currency))
  }

  ghost predicate TopicsInv(w: World)
  {
    (forall m | m in w.toSeller :: SentToSeller(w, m)) && (forall m | m in w.toBuyer :: SentToBuyer(w, m))
  }

  ghost predicate BuyerInv(w: World)
  {
    var cfg, b, r := w.cfg, w.buyer, BRank(w.buyer.pc);
    && b.state == BuyerState(b.pc)
    && (b.hash.Some? <==> r > 2)
    && (b.hash.Some? ==> b.hash.value == cfg.AgreementHash())
    && (b.escrow.Some? <==> r > 3)
    && (r > 7 ==> b.invoiced == w.seller.release)
    && (b.released.Some? <==> r > 8)
  }

  ghost predicate SellerInv(w: World)
  {
    var cfg, s, r := w.cfg, w.seller, SRank(w.seller.pc);
    && (s.state == SellerState(s.pc))
    && (r > 1 ==> s.rid == cfg.rid && s.amount == cfg.price && s.currency == cfg.currency)
    && (s.hash.Some? <==> r > 2)
    && (s.hash.Some? ==> s.hash.value == cfg.AgreementHash())
    && (r > 3 ==> w.buyer.escrow == Some(s.escrow))
  }

  /** The money of this session: deposited in full before the seller hears of it, requested by the
      seller, paid out by the buyer's approval and by nothing else. */
  ghost predicate MoneyInv(w: World)
  {
    var cfg, b, s := w.cfg, BRank(w.buyer.pc), SRank(w.seller.pc);
    && E.Sound(w.ledger)
    && (b > 3 && w.buyer.escrow.Some? ==>
          var k := w.buyer.escrow.value;
          && k in w.ledger.escrows
          && var a := w.ledger.escrows[k];
          && E.TermsOf(a) == Terms(cfg)
          && (b == 4 ==> a.balance == 0 && a.released == 0 && a.releases == map[])
          && (b > 4 ==>
                E.ParseAmount(cfg.price).Some?
                && var price := E.ParseAmount(cfg.price).value;
                && price > 0
                && (if b > 8 then
                      a.balance == 0 && a.released == price && a.releases == map[] && w.buyer.released == Some(E.Release(price, cfg.recipient))
                    else
                      a.balance == price && a.released == 0 && a.releases == Requests(w, price))))
    && (s > 5 ==> if cfg.SellerReleases() then w.seller.release.MemRelease? else w.seller.release == E.Placeholder(cfg.placeholder))
    && (s > 5 && cfg.SellerReleases() ==> cfg.SellerBinding() == "memory")
    && (b > 8 ==> cfg.SellerReleases() && s > 5)
  }

  /** What the buyer opens the account with. */
  function Terms(cfg: Config): E.Terms
  {
    E.Terms(cfg.buyerEVM, cfg.sellerEVM, cfg.currency, cfg.AgreementHash(), cfg.timeout)
  }

  /** The release requests that are pending before the approval. */
  ghost function Requests(w: World, price: int): map<nat, E.Pending>
  {
    if SRank(w.seller.pc) > 5 && w.seller.release.MemRelease?
    then map[w.seller.release.n := E.Pending(price, w.cfg.recipient, w.cfg.AgreementHash())]
    else map[]
  }

  ghost predicate Inv(w: World)
  {
    Causal(w) && TopicsInv(w) && BuyerInv(w) && SellerInv(w) && MoneyInv(w)
  }

  lemma InitInv(cfg: Config, ledger: E.Ledger)
    requires ValidBuyerConfig(cfg) && E.Sound(ledger)
    ensures Inv(Init(cfg, ledger))
  {
  }

  // ----- every step keeps it: the topics

  /** Neither party has gone back, and what they have sent still stands. */
  ghost predicate Forward(w: World, v: World)
  {
    && v.cfg == w.cfg && BRank(v.buyer.pc) >= BRank(w.buyer.pc) && SRank(v.seller.pc) >= SRank(w.seller.pc)
    && (BRank(w.buyer.pc) > 5 ==> v.buyer.escrow == w.buyer.escrow)
    && (BRank(w.buyer.pc) > 9 ==> v.buyer.invoiced == w.buyer.invoiced)
    && (SRank(w.seller.pc) > 6 ==> v.seller.release == w.seller.release && v.seller.escrow == w.seller.escrow)
  }

  lemma TopicsForward(w: World, v: World)
    requires TopicsInv(w) && Forward(w, v)
    requires forall m | m in v.toSeller :: m in w.toSeller || SentToSeller(v, m)
    requires forall m | m in v.toBuyer :: m in w.toBuyer || SentToBuyer(v, m)
    ensures TopicsInv(v)
  {
    forall m | m in v.toSeller
      ensures SentToSeller(v, m)
    {
      assert m in w.toSeller ==> SentToSeller(w, m);
    }
    forall m | m in v.toBuyer
      ensures SentToBuyer(v, m)
    {
      assert m in w.toBuyer ==> SentToBuyer(w, m);
    }
  }

  lemma BuyerActForward(w: World)
    requires BuyerInv(w) && Enabled(w, BuyerStep)
    ensures Forward(w, BuyerAct(w)) && BuyerAct(w).toBuyer == w.toBuyer && BuyerAct(w).seller == w.seller
  {
  }

  lemma BuyerActSends(w: World)
    requires BuyerInv(w) && Enabled(w, BuyerStep)
    ensures forall m | m in BuyerAct(w).toSeller :: m in w.toSeller || SentToSeller(BuyerAct(w), m)
  {
  }

  lemma SellerActForward(w: World)
    requires SellerInv(w) && Enabled(w, SellerStep)
    ensures Forward(w, SellerAct(w)) && SellerAct(w).toSeller == w.toSeller && SellerAct(w).buyer == w.buyer
  {
  }

  lemma SellerActSends(w: World)
    requires SellerInv(w) && Enabled(w, SellerStep)
    ensures forall m | m in SellerAct(w).toBuyer :: m in w.toBuyer || SentToBuyer(SellerAct(w), m)
  {
  }

  // ----- every step keeps it: the parties

  /** Both parties are where they may be and hold what they should. */
  ghost predicate PartiesInv(w: World)
  {
    Causal(w) && BuyerInv(w) && SellerInv(w)
  }

  lemma FireOne(s: A.State, e: A.Event)
    ensures Fire(s, [e]) == A.Next(s, e)
  {
    assert [e][1..] == [];
  }

  /** The transitions of the buyer's own steps. */
  lemma BuyerFires()
    ensures Fire(A.Idle, [A.ServiceRequest]) == Some(A.Requested)
    ensures Fire(A.Agreed, [A.EscrowCreated]) == Some(A.Funded)
    ensures Fire(A.Invoiced, [A.InvoiceApproved]) == Some(A.Active)
  {
    FireOne(A.Idle, A.ServiceRequest);
    FireOne(A.Agreed, A.EscrowCreated);
    FireOne(A.Invoiced, A.InvoiceApproved);
  }

  /** The transitions of the seller's own steps. */
  lemma SellerFires()
    ensures Fire(A.Requested, [A.Accept]) == Some(A.Agreed)
    ensures Fire(A.Funded, [A.DeliveryStarted]) == Some(A.Active)
    ensures Fire(A.Active, [A.Invoice]) == Some(A.Invoiced)
  {
    FireOne(A.Requested, A.Accept);
    FireOne(A.Funded, A.DeliveryStarted);
    FireOne(A.Active, A.Invoice);
  }

  lemma BuyerActOwn(w: World)
    requires BuyerInv(w) && Enabled(w, BuyerStep)
    ensures BuyerInv(BuyerAct(w))
  {
    BuyerFires();
  }

  lemma BuyerActCausal(w: World)
    requires Causal(w) && SellerInv(w) && Enabled(w, BuyerStep)
    ensures Causal(BuyerAct(w)) && SellerInv(BuyerAct(w))
  {
  }

  lemma BuyerActParties(w: World)
    requires PartiesInv(w) && Enabled(w, BuyerStep)
    ensures PartiesInv(BuyerAct(w))
  {
    BuyerActOwn(w);
    BuyerActCausal(w);
  }

  lemma FireDelivery()
    ensures Fire(A.Funded, [A.DeliveryStarted]) == Some(A.Active)
    ensures [A.DeliveryStarted] + [A.Invoice] == [A.DeliveryStarted, A.Invoice]
    ensures Fire(A.Funded, [A.DeliveryStarted, A.Invoice]) == Some(A.Invoiced)
  {
    assert Fire(A.Funded, [A.DeliveryStarted, A.Invoice]) == Fire(A.Active, [A.Invoice]);
  }

  lemma SellerActParties(w: World)
    requires PartiesInv(w) && Enabled(w, SellerStep)
    ensures PartiesInv(SellerAct(w))
  {
    SellerActOwn(w);
    SellerActCausal(w);
  }

  lemma SellerActOwn(w: World)
    requires SellerInv(w) && Causal(w) && Enabled(w, SellerStep)
    ensures SellerInv(SellerAct(w))
  {
    SellerFires();
  }

  lemma SellerActCausal(w: World)
    requires Causal(w) && BuyerInv(w) && Enabled(w, SellerStep)
    ensures Causal(SellerAct(w)) && BuyerInv(SellerAct(w))
  {
  }

  lemma BuyerReceiveParties(w: World, i: nat)
    requires PartiesInv(w) && Enabled(w, BuyerReceive(i)) && SentToBuyer(w, w.toBuyer[i])
    ensures PartiesInv(Apply(w, BuyerReceive(i))) && Forward(w, Apply(w, BuyerReceive(i)))
  {
    FireDelivery();
  }

  lemma SellerReceiveParties(w: World, i: nat)
    requires PartiesInv(w) && Enabled(w, SellerReceive(i)) && SentToSeller(w, w.toSeller[i])
    ensures PartiesInv(Apply(w, SellerReceive(i))) && Forward(w, Apply(w, SellerReceive(i)))
  {
    SellerReceiveOwn(w, i);
    SellerReceiveCausal(w, i);
  }

  lemma SellerReceiveOwn(w: World, i: nat)
    requires PartiesInv(w) && Enabled(w, SellerReceive(i)) && SentToSeller(w, w.toSeller[i])
    ensures SellerInv(Apply(w, SellerReceive(i))) && Forward(w, Apply(w, SellerReceive(i)))
  {
  }

  lemma SellerReceiveCausal(w: World, i: nat)
    requires PartiesInv(w) && Enabled(w, SellerReceive(i)) && SentToSeller(w, w.toSeller[i])
    ensures Causal(Apply(w, SellerReceive(i))) && BuyerInv(Apply(w, SellerReceive(i)))
  {
  }

  // ----- every step keeps it: the money

  /** What the money depends on is as it was. */
  ghost predicate SameMoney(w: World, v: World)
  {
    var b, c, s, t := BRank(w.buyer.pc), BRank(v.buyer.pc), SRank(w.seller.pc), SRank(v.seller.pc);
    && v.cfg == w.cfg && v.ledger == w.ledger
    && v.buyer.escrow == w.buyer.escrow && v.buyer.released == w.buyer.released && v.seller.release == w.seller.release
    && (b > 3 <==> c > 3) && (b > 4 <==> c > 4) && (b > 8 <==> c > 8) && (s > 5 <==> t > 5)
  }

  lemma MoneyStays(w: World, v: World)
    requires MoneyInv(w) && SameMoney(w, v)
    ensures MoneyInv(v)
  {
  }

  lemma BuyerCreateMoney(w: World)
    requires PartiesInv(w) && MoneyInv(w) && Enabled(w, BuyerStep) && w.buyer.pc == BCreate
    ensures MoneyInv(BuyerAct(w))
  {
    E.DoSound(w.ledger, E.Create(w.cfg.buyerEVM, w.cfg.sellerEVM, w.cfg.currency, w.buyer.hash.value, w.cfg.timeout));
  }

  lemma BuyerDepositMoney(w: World)
    requires PartiesInv(w) && MoneyInv(w) && Enabled(w, BuyerStep) && w.buyer.pc == BDeposit
    ensures MoneyInv(BuyerAct(w))
  {
    E.DoSound(w.ledger, E.Deposit(Ref(w), w.cfg.price));
  }

  /** Before the buyer's approval its account holds the price and the one request for it is pending. */
  lemma BeforeApproval(w: World)
    requires PartiesInv(w) && MoneyInv(w) && w.buyer.pc == BApprove
    ensures w.buyer.escrow.Some? && w.buyer.escrow.value in w.ledger.escrows
    ensures E.ParseAmount(w.cfg.price).Some? && E.ParseAmount(w.cfg.price).value > 0
    ensures var a, price := w.ledger.escrows[w.buyer.escrow.value], E.ParseAmount(w.cfg.price).value;
            && a.balance == price && a.released == 0 && SRank(w.seller.pc) > 5
            && match w.buyer.invoiced
               case MemRelease(n) => a.releases == map[n := E.Pending(price, w.cfg.recipient, w.cfg.AgreementHash())] && w.cfg.SellerReleases()
               case Placeholder(_) => a.releases == map[]
  {
  }

  lemma PaidOut(n: nat, p: E.Pending)
    ensures map[n := p] - {n} == map[]
  {
  }

  lemma BuyerApproveMoney(w: World)
    requires PartiesInv(w) && MoneyInv(w) && Enabled(w, BuyerStep) && w.buyer.pc == BApprove
    ensures MoneyInv(BuyerAct(w))
  {
    E.DoSound(w.ledger, E.Approve(Ref(w), w.buyer.invoiced));
    BeforeApproval(w);
    match w.buyer.invoiced
    case MemRelease(n) => ApprovalPays(w, n);
    case _ =>
      ApprovalRefused(w);
      MoneyStays(w, BuyerAct(w));
  }

  lemma ApprovalRefused(w: World)
    requires w.buyer.pc == BApprove && w.buyer.escrow.Some? && w.buyer.invoiced.Placeholder?
    ensures SameMoney(w, BuyerAct(w))
  {
  }

  lemma ApprovalPays(w: World, n: nat)
    requires MoneyInv(w) && w.buyer.pc == BApprove && w.buyer.escrow.Some? && w.buyer.escrow.value in w.ledger.escrows
    requires w.buyer.invoiced == E.MemRelease(n) && E.ParseAmount(w.cfg.price).Some? && w.cfg.SellerReleases() && SRank(w.seller.pc) > 5
    requires var a, price := w.ledger.escrows[w.buyer.escrow.value], E.ParseAmount(w.cfg.price).value;
             && a.balance == price && a.released == 0
             && a.releases == map[n := E.Pending(price, w.cfg.recipient, w.cfg.AgreementHash())]
    requires E.Sound(E.Do(w.ledger, E.Approve(Ref(w), w.buyer.invoiced)))
    ensures MoneyInv(BuyerAct(w))
  {
    PaidOut(n, E.Pending(E.ParseAmount(w.cfg.price).value, w.cfg.recipient, w.cfg.AgreementHash()));
  }

  lemma BuyerTalkMoney(w: World)
    requires Enabled(w, BuyerStep) && w.buyer.pc !in {BCreate, BDeposit, BApprove}
    ensures SameMoney(w, BuyerAct(w))
  {
  }

  lemma BuyerActKeeps(w: World)
    requires Inv(w) && Enabled(w, BuyerStep)
    ensures Inv(BuyerAct(w))
  {
    BuyerActForward(w);
    BuyerActSends(w);
    TopicsForward(w, BuyerAct(w));
    BuyerActParties(w);
    match w.buyer.pc
    case BCreate => BuyerCreateMoney(w);
    case BDeposit => BuyerDepositMoney(w);
    case BApprove => BuyerApproveMoney(w);
    case _ =>
      BuyerTalkMoney(w);
      MoneyStays(w, BuyerAct(w));
  }

  lemma OnlyOne(k: nat, p: E.Pending)
    ensures map[][k := p] == map[k := p]
    ensures E.PendingTotal(map[]) == 0
  {
  }

  /** The ledger after the seller's request, when nothing else is pending. */
  lemma RequestLeaves(l: E.Ledger, ref: E.EscrowRef, amount: string, recipient: string, evidence: E.Hash)
    requires ref.locator in l.escrows && l.escrows[ref.locator].releases == map[]
    requires E.ParseAmount(amount).Some? && 0 < E.ParseAmount(amount).value <= l.escrows[ref.locator].balance
    ensures E.Lookup(l, ref).Some? ==>
            var p := E.Pending(E.ParseAmount(amount).value, recipient, evidence);
            E.Requested(l, ref, amount, recipient, evidence) ==
            Ok(l.(releaseID := l.releaseID + 1,
                    escrows := l.escrows[ref.locator := l.escrows[ref.locator].(releases := map[l.releaseID + 1 := p])]))
  {
    OnlyOne(l.releaseID + 1, E.Pending(E.ParseAmount(amount).value, recipient, evidence));
  }

  /** Before the seller's request its account holds the price and nothing is pending. */
  lemma BeforeRequest(w: World)
    requires PartiesInv(w) && MoneyInv(w) && w.seller.pc == SRequestRelease
    ensures w.buyer.escrow == Some(w.seller.escrow) && 5 < BRank(w.buyer.pc) <= 8
    ensures w.seller.escrow in w.ledger.escrows
    ensures E.ParseAmount(w.seller.amount).Some? && E.ParseAmount(w.seller.amount).value > 0
    ensures var a := w.ledger.escrows[w.seller.escrow];
            a.releases == map[] && a.balance == E.ParseAmount(w.seller.amount).value && a.released == 0
  {
  }

  lemma SellerRequestMoney(w: World)
    requires PartiesInv(w) && MoneyInv(w)
    requires Enabled(w, SellerStep) && w.seller.pc == SRequestRelease && w.cfg.SellerReleases()
    requires w.cfg.SellerBinding() == "memory"
    ensures MoneyInv(SellerAct(w))
  {
    var s, cfg, l := w.seller, w.cfg, w.ledger;
    var ref := E.EscrowRef(cfg.SellerBinding(), s.escrow);
    E.DoSound(l, E.Request(ref, s.amount, cfg.recipient, s.hash.value));
    BeforeRequest(w);
    RequestLeaves(l, ref, s.amount, cfg.recipient, s.hash.value);
    RequestIsPending(w, SellerAct(w));
  }

  lemma RequestIsPending(w: World, v: World)
    requires PartiesInv(w) && MoneyInv(w) && w.seller.pc == SRequestRelease && w.cfg.SellerReleases() && w.cfg.SellerBinding() == "memory"
    requires w.buyer.escrow == Some(w.seller.escrow) && 5 < BRank(w.buyer.pc) <= 8 && w.seller.escrow in w.ledger.escrows
    requires v.cfg == w.cfg && v.buyer == w.buyer && v.seller.pc == SPublishInvoice && v.seller.release.MemRelease? && E.Sound(v.ledger)
    requires E.ParseAmount(w.cfg.price).Some?
    requires var p := E.Pending(E.ParseAmount(w.cfg.price).value, w.cfg.recipient, w.cfg.AgreementHash());
             v.ledger.escrows == w.ledger.escrows[w.seller.escrow := w.ledger.escrows[w.seller.escrow].(releases := map[v.seller.release.n := p])]
    ensures MoneyInv(v)
  {
  }

  lemma SellerRequestRefused(w: World)
    requires SellerInv(w) && Enabled(w, SellerStep) && w.seller.pc == SRequestRelease && w.cfg.SellerReleases()
    requires w.cfg.SellerBinding() != "memory"
    ensures SameMoney(w, SellerAct(w))
  {
  }

  lemma SellerPlaceholderMoney(w: World)
    requires PartiesInv(w) && MoneyInv(w)
    requires Enabled(w, SellerStep) && w.seller.pc == SRequestRelease && !w.cfg.SellerReleases()
    ensures MoneyInv(SellerAct(w))
  {
    BeforeRequest(w);
  }

  lemma SellerTalkMoney(w: World)
    requires Enabled(w, SellerStep) && w.seller.pc != SRequestRelease
    ensures SameMoney(w, SellerAct(w))
  {
  }

  lemma SellerActMoney(w: World)
    requires PartiesInv(w) && MoneyInv(w) && Enabled(w, SellerStep)
    ensures MoneyInv(SellerAct(w))
  {
    if w.seller.pc != SRequestRelease {
      SellerTalkMoney(w);
      MoneyStays(w, SellerAct(w));
    } else if !w.cfg.SellerReleases() {
      SellerPlaceholderMoney(w);
    } else if w.cfg.SellerBinding() == "memory" {
      SellerRequestMoney(w);
    } else {
      SellerRequestRefused(w);
      MoneyStays(w, SellerAct(w));
    }
  }

  lemma SellerActKeeps(w: World)
    requires Inv(w) && Enabled(w, SellerStep)
    ensures Inv(SellerAct(w))
  {
    SellerActForward(w);
    SellerActSends(w);
    TopicsForward(w, SellerAct(w));
    SellerActParties(w);
    SellerActMoney(w);
  }

  lemma BuyerReceiveMoney(w: World, i: nat)
    requires Enabled(w, BuyerReceive(i))
    ensures SameMoney(w, Apply(w, BuyerReceive(i)))
  {
  }

  lemma BuyerReceiveKeeps(w: World, i: nat)
    requires Inv(w) && Enabled(w, BuyerReceive(i))
    ensures Inv(Apply(w, BuyerReceive(i)))
  {
    var v := Apply(w, BuyerReceive(i));
    assert w.toBuyer[i] in w.toBuyer;
    BuyerReceiveParties(w, i);
    TopicsForward(w, v);
    BuyerReceiveMoney(w, i);
    MoneyStays(w, v);
  }

  lemma SellerReceiveMoney(w: World, i: nat)
    requires Enabled(w, SellerReceive(i))
    ensures SameMoney(w, Apply(w, SellerReceive(i)))
  {
  }

  lemma SellerReceiveKeeps(w: World, i: nat)
    requires Inv(w) && Enabled(w, SellerReceive(i))
    ensures Inv(Apply(w, SellerReceive(i)))
  {
    var v := Apply(w, SellerReceive(i));
    assert w.toSeller[i] in w.toSeller;
    SellerReceiveParties(w, i);
    TopicsForward(w, v);
    SellerReceiveMoney(w, i);
    MoneyStays(w, v);
  }

  lemma NoiseKeeps(w: World, toBuyer: bool, m: Msg)
    requires Inv(w) && Enabled(w, Noise(toBuyer, m))
    ensures Inv(Publish(w, toBuyer, m))
  {
    var v := Publish(w, toBuyer, m);
    TopicsForward(w, v);
    MoneyStays(w, v);
  }

  lemma ElsewhereKeeps(w: World, op: E.Op)
    requires Inv(w) && Enabled(w, Elsewhere(op))
    ensures Inv(w.(ledger := E.Do(w.ledger, op)))
  {
    var v := w.(ledger := E.Do(w.ledger, op));
    E.DoSound(w.ledger, op);
    TopicsForward(w, v);
    ElsewhereMoney(w, op);
  }

  lemma ElsewhereMoney(w: World, op: E.Op)
    requires MoneyInv(w) && OnOtherAccount(op, w.buyer.escrow) && E.Sound(E.Do(w.ledger, op))
    ensures MoneyInv(w.(ledger := E.Do(w.ledger, op)))
  {
    if w.buyer.escrow.Some? && BRank(w.buyer.pc) > 3 {
      var k := w.buyer.escrow.value;
      assert k in E.Do(w.ledger, op).escrows && E.Do(w.ledger, op).escrows[k] == w.ledger.escrows[k];
    }
  }

  lemma TimeoutKeeps(w: World, step: Step)
    requires Inv(w) && Enabled(w, step) && (step.BuyerTimeout? || step.SellerTimeout?)
    ensures Inv(Apply(w, step)) && Apply(w, step).cfg == w.cfg
  {
    TopicsForward(w, Apply(w, step));
    MoneyStays(w, Apply(w, step));
  }

  lemma StepKeeps(w: World, step: Step)
    requires Inv(w) && Enabled(w, step)
    ensures Inv(Apply(w, step)) && Apply(w, step).cfg == w.cfg
  {
    match step
    case BuyerStep => BuyerActKeeps(w);
    case BuyerReceive(i) => BuyerReceiveKeeps(w, i);
    case BuyerTimeout => TimeoutKeeps(w, step);
    case SellerStep => SellerActKeeps(w);
    case SellerReceive(i) => SellerReceiveKeeps(w, i);
    case SellerTimeout => TimeoutKeeps(w, step);
    case Noise(toBuyer, m) => NoiseKeeps(w, toBuyer, m);
    case Elsewhere(op) => ElsewhereKeeps(w, op);
  }

  ghost predicate IsRun(w: World, steps: seq<Step>)
    decreases |steps|
  {
    steps == [] || (Enabled(w, steps[0]) && IsRun(Apply(w, steps[0]), steps[1..]))
  }

  ghost function End(w: World, steps: seq<Step>): World
    requires IsRun(w, steps)
    decreases |steps|
  {
    if steps == [] then w else End(Apply(w, steps[0]), steps[1..])
  }

  lemma {:induction false} RunKeeps(w: World, steps: seq<Step>)
    requires Inv(w) && IsRun(w, steps)
    ensures Inv(End(w, steps)) && End(w, steps).cfg == w.cfg
    decreases |steps|
  {
    if steps != [] {
      StepKeeps(w, steps[0]);
      RunKeeps(Apply(w, steps[0]), steps[1..]);
    }
  }

  // ----- safety over every run

  /** The account of this session. */
  function Account(w: World): Option<E.Account>
  {
    if w.buyer.escrow.Some? && w.buyer.escrow.value in w.ledger.escrows
    then Some(w.ledger.escrows[w.buyer.escrow.value]) else None
  }

  /** Whatever is duplicated, lost in time-outs or added to the topics: a seller in FUNDED or later
      refers to the buyer's account, which holds or has paid out exactly the price, and the
      agreement hash is the same at the buyer, at the seller and in the account. */
  lemma FundedMeansDeposited(cfg: Config, ledger: E.Ledger, steps: seq<Step>)
    requires ValidBuyerConfig(cfg) && E.Sound(ledger) && IsRun(Init(cfg, ledger), steps)
    requires End(Init(cfg, ledger), steps).seller.state in {A.Funded, A.Active, A.Invoiced}
    ensures var w := End(Init(cfg, ledger), steps);
            && w.buyer.escrow == Some(w.seller.escrow) && Account(w).Some?
            && var a := Account(w).value;
            && w.seller.hash == w.buyer.hash == Some(a.agreementHash)
            && a.buyer == cfg.buyerEVM && a.seller == cfg.sellerEVM && a.currency == cfg.currency && a.timeout == cfg.timeout
            && E.ParseAmount(cfg.price) == Some(a.balance + a.released) && a.balance + a.released > 0
            && w.seller.amount == cfg.price
  {
    InitInv(cfg, ledger);
    RunKeeps(Init(cfg, ledger), steps);
    FundedRank(End(Init(cfg, ledger), steps));
    FundedAccount(End(Init(cfg, ledger), steps));
  }

  lemma FundedRank(w: World)
    requires SellerInv(w) && w.seller.state in {A.Funded, A.Active, A.Invoiced}
    ensures SRank(w.seller.pc) > 3
  {
  }

  lemma FundedAccount(w: World)
    requires PartiesInv(w) && MoneyInv(w) && SRank(w.seller.pc) > 3
    ensures w.buyer.escrow == Some(w.seller.escrow) && Account(w).Some? && w.seller.amount == w.cfg.price
    ensures w.seller.hash == w.buyer.hash == Some(Account(w).value.agreementHash)
    ensures E.TermsOf(Account(w).value) == Terms(w.cfg)
    ensures var a := Account(w).value; E.ParseAmount(w.cfg.price) == Some(a.balance + a.released) && a.balance + a.released > 0
  {
  }

  /** The seller's IssueInvoice returns success only after the buyer's approval paid the whole price
      to the seller's address, and both agreements are then ACTIVE. */
  lemma SettledMeansPaid(cfg: Config, ledger: E.Ledger, steps: seq<Step>)
    requires ValidBuyerConfig(cfg) && E.Sound(ledger) && IsRun(Init(cfg, ledger), steps)
    requires End(Init(cfg, ledger), steps).seller.pc == SSettled
    ensures var w := End(Init(cfg, ledger), steps);
            && E.ParseAmount(cfg.price).Some? && Account(w).Some?
            && var price := E.ParseAmount(cfg.price).value;
            && price > 0
            && w.buyer.released == Some(E.Release(price, cfg.recipient))
            && Account(w).value.balance == 0 && Account(w).value.released == price
            && w.buyer.state == w.seller.state == A.Active
  {
    InitInv(cfg, ledger);
    RunKeeps(Init(cfg, ledger), steps);
  }

  /** In every state the account has paid nothing or, once, the price; it has paid exactly when the
      buyer's ApproveRelease returned; and a seller without its own escrow adapter is never paid. */
  lemma PaidAtMostOnce(cfg: Config, ledger: E.Ledger, steps: seq<Step>)
    requires ValidBuyerConfig(cfg) && E.Sound(ledger) && IsRun(Init(cfg, ledger), steps)
    ensures var w := End(Init(cfg, ledger), steps);
            Account(w).Some? ==>
              var a := Account(w).value;
              && (w.buyer.released == None ==> a.released == 0)
              && (w.buyer.released.Some? ==> a.released == w.buyer.released.value.amount > 0 && a.balance == 0 && cfg.SellerReleases())
              && (a.balance + a.released == 0 || E.ParseAmount(cfg.price) == Some(a.balance + a.released))
  {
    InitInv(cfg, ledger);
    RunKeeps(Init(cfg, ledger), steps);
  }

  /** In every reachable state the messages under the session's request id are exactly those the two
      parties may have sent so far, with nothing in them but what they agreed on and hold. */
  lemma TopicsSay(cfg: Config, ledger: E.Ledger, steps: seq<Step>, m: Msg)
    requires ValidBuyerConfig(cfg) && E.Sound(ledger) && IsRun(Init(cfg, ledger), steps) && IsFor(m, cfg.rid) && !m.Other?
    ensures var w := End(Init(cfg, ledger), steps);
            && (m in w.toSeller ==>
                  match m
                  case Request(_, amount, currency) => amount == cfg.price && currency == cfg.currency
                  case Created(_, escrow, amount, currency) =>
                    Some(escrow) == w.buyer.escrow && amount == cfg.price && currency == cfg.currency && Account(w).Some?
                  case Ack(_, release, action) => release == w.buyer.invoiced && action == "approved" && w.buyer.released.Some?
                  case _ => true)
            && (m in w.toBuyer ==>
                  match m
                  case Response(_, action) => action == "accept" && w.seller.hash == Some(cfg.hash(m))
                  case Invoice(_, release, escrow, amount, currency) =>
                    && release == w.seller.release && Some(escrow) == w.buyer.escrow
                    && amount == cfg.price && currency == cfg.currency
                    && (if cfg.sellerHasEscrow && cfg.recipient != "" then release.MemRelease? else release == E.Placeholder(cfg.placeholder))
                  case _ => true)
  {
    InitInv(cfg, ledger);
    RunKeeps(Init(cfg, ledger), steps);
    SaidOf(End(Init(cfg, ledger), steps), m);
  }

  lemma SaidOf(w: World, m: Msg)
    requires Inv(w)
    ensures m in w.toSeller ==> SentToSeller(w, m)
    ensures m in w.toBuyer ==> SentToBuyer(w, m)
    ensures SRank(w.seller.pc) > 2 ==> w.seller.hash == Some(w.cfg.hash(w.cfg.Accept()))
    ensures SRank(w.seller.pc) > 6 ==> Some(w.seller.escrow) == w.buyer.escrow
    ensures SRank(w.seller.pc) > 6 ==>
              if w.cfg.SellerReleases() then w.seller.release.MemRelease? else w.seller.release == E.Placeholder(w.cfg.placeholder)
    ensures BRank(w.buyer.pc) > 5 ==> Account(w).Some?
    ensures BRank(w.buyer.pc) > 9 ==> w.buyer.released.Some?
  {
  }

  /** The buyer's account has the timeout of its configuration, and a refund from it would succeed
      exactly from then on. */
  lemma RefundableFromTimeout(cfg: Config, ledger: E.Ledger, steps: seq<Step>)
    requires ValidBuyerConfig(cfg) && E.Sound(ledger) && IsRun(Init(cfg, ledger), steps)
    requires End(Init(cfg, ledger), steps).buyer.escrow.Some?
    ensures var w := End(Init(cfg, ledger), steps);
            E.Attempt(w.ledger, E.Refund(Ref(w))).Ok? <==> w.ledger.clock >= cfg.timeout
  {
    InitInv(cfg, ledger);
    RunKeeps(Init(cfg, ledger), steps);
    HasTerms(End(Init(cfg, ledger), steps));
  }

  lemma HasTerms(w: World)
    requires BuyerInv(w) && MoneyInv(w) && w.buyer.escrow.Some?
    ensures w.buyer.escrow.value in w.ledger.escrows && E.TermsOf(w.ledger.escrows[w.buyer.escrow.value]) == Terms(w.cfg)
  {
  }

  // ----- why a party fails

  /** An account of the in-memory ledger. */
  ghost predicate HasAccount(l: E.Ledger, ref: Option<nat>)
  {
    ref.Some? && ref.value in l.escrows
  }

  /** The agreement never stands in the way: the buyer fails at a time-out, when the response to its
      request is not an acceptance, or when the ledger refuses the deposit or the approval. */
  lemma BuyerFailsIff(w: World, step: Step)
    requires Enabled(w, step) && !w.buyer.failed && w.buyer.state == BuyerState(w.buyer.pc)
    ensures Apply(w, step).buyer.failed <==>
            match step
            case BuyerTimeout => true
            case BuyerReceive(i) =>
              var m := w.toBuyer[i];
              w.buyer.pc == BAwaitResponse && m.Response? && (w.cfg.rid == "" || m.rid == w.cfg.rid) && m.action != "accept"
            case BuyerStep => BuyerActFails(w)
            case _ => false
  {
    match step
    case BuyerStep => BuyerFires();
    case BuyerReceive(i) => BuyerRefuses(w.buyer.(seen := w.buyer.seen + {i}), w.cfg, w.toBuyer[i]);
    case _ =>
  }

  lemma BuyerRefuses(b: Buyer, cfg: Config, m: Msg)
    requires !b.failed && b.state == BuyerState(b.pc)
    ensures BuyerTakes(b, cfg, m).failed <==>
            b.pc == BAwaitResponse && m.Response? && (cfg.rid == "" || m.rid == cfg.rid) && m.action != "accept"
  {
    FireDelivery();
    FireOne(A.Requested, A.Accept);
  }

  ghost predicate BuyerActFails(w: World)
  {
    var b, l := w.buyer, w.ledger;
    match b.pc
    case BCreate => b.hash == None
    case BDeposit =>
      !HasAccount(l, b.escrow) || E.ParseAmount(w.cfg.price) == None || E.ParseAmount(w.cfg.price).value <= 0
    case BPublishCreated => b.escrow == None
    case BApprove =>
      !HasAccount(l, b.escrow) || !b.invoiced.MemRelease? || b.invoiced.n !in l.escrows[b.escrow.value].releases
    case _ => false
  }

  /** The seller fails at a time-out, when its invoice is not approved, which ends the agreement, or when
      the ledger refuses the release it asks for. */
  lemma SellerFailsIff(w: World, step: Step)
    requires Enabled(w, step) && !w.seller.failed && w.seller.state == SellerState(w.seller.pc)
    ensures Apply(w, step).seller.failed <==>
            match step
            case SellerTimeout => true
            case SellerReceive(i) =>
              var m := w.toSeller[i];
              w.seller.pc == SAwaitAck && m.Ack? && (w.seller.rid == "" || m.rid == w.seller.rid) && m.action != "approved"
            case SellerStep => SellerActFails(w)
            case _ => false
    ensures step.SellerReceive? && Apply(w, step).seller.failed ==> Apply(w, step).seller.state == A.Terminated
  {
    match step
    case SellerStep => SellerFires();
    case SellerReceive(i) => SellerRefuses(w.seller.(seen := w.seller.seen + {i}), w.toSeller[i]);
    case _ =>
  }

  lemma SellerRefuses(s: Seller, m: Msg)
    requires !s.failed && s.state == SellerState(s.pc)
    ensures SellerTakes(s, m).failed <==> s.pc == SAwaitAck && m.Ack? && (s.rid == "" || m.rid == s.rid) && m.action != "approved"
    ensures SellerTakes(s, m).failed ==> SellerTakes(s, m).state == A.Terminated
  {
    FireOne(A.Idle, A.ServiceRequest);
    FireOne(A.Agreed, A.EscrowCreated);
    FireOne(A.Invoiced, A.InvoiceApproved);
    FireOne(A.Invoiced, A.InvoiceRefused);
  }

  ghost predicate SellerActFails(w: World)
  {
    var s, l := w.seller, w.ledger;
    && s.pc == SRequestRelease && w.cfg.sellerHasEscrow && w.cfg.recipient != ""
    && (|| s.hash == None
        || w.cfg.binding != "memory"
        || s.escrow !in l.escrows
        || E.ParseAmount(s.amount) == None
        || E.ParseAmount(s.amount).value <= 0
        || E.ParseAmount(s.amount).value > l.escrows[s.escrow].balance - E.PendingTotal(l.escrows[s.escrow].releases))
  }

  // ----- no deadlock

  predicate Faultless(step: Step)
  {
    !step.BuyerTimeout? && !step.SellerTimeout?
  }

  /** The configurations under which settlement is possible at all. */
  predicate CanSettle(cfg: Config)
  {
    && E.ParseAmount(cfg.price).Some? && E.ParseAmount(cfg.price).value > 0
    && cfg.SellerReleases() && cfg.SellerBinding() == "memory"
  }

  predicate IsFor(m: Msg, rid: string)
  {
    !m.Garbage? && m.rid == rid
  }

  /** Every message a party has sent is on its topic. */
  ghost predicate Posted(w: World)
  {
    var rid, b, s := w.cfg.rid, BRank(w.buyer.pc), SRank(w.seller.pc);
    && (b > 0 ==> exists m :: m in w.toSeller && m.Request?)
    && (s > 2 ==> exists m :: m in w.toBuyer && m.Response? && IsFor(m, rid))
    && (b > 5 ==> exists m :: m in w.toSeller && m.Created? && IsFor(m, rid))
    && (s > 6 ==> exists m :: m in w.toBuyer && m.Invoice? && IsFor(m, rid))
    && (b > 9 ==> exists m :: m in w.toSeller && m.Ack? && IsFor(m, rid))
  }

  /** No subscription has thrown away a message that a present or later wait needs. */
  ghost predicate NothingLost(w: World)
  {
    && (forall i | i in w.buyer.seen && BuyerWaits(w.buyer.pc) :: i < |w.toBuyer| && !BuyerNeeds(w, w.toBuyer[i]))
    && (forall i | i in w.seller.seen && (SellerWaits(w.seller.pc) || w.seller.pc == SRespond) ::
          i < |w.toSeller| && !SellerNeeds(w, w.toSeller[i]))
  }

  ghost predicate NobodyFailed(w: World)
  {
    CanSettle(w.cfg) && !w.buyer.failed && !w.seller.failed
  }

  ghost predicate Live(w: World)
  {
    NobodyFailed(w) && Posted(w) && NothingLost(w)
  }

  predicate BuyerNeeds(w: World, m: Msg)
  {
    || (w.buyer.pc == BAwaitResponse && m.Response? && IsFor(m, w.cfg.rid))
    || (w.buyer.pc == BAwaitInvoice && m.Invoice? && IsFor(m, w.cfg.rid))
  }

  predicate SellerNeeds(w: World, m: Msg)
  {
    || (w.seller.pc == SAwaitRequest && m.Request?)
    || (w.seller.pc in {SAwaitRequest, SRespond, SAwaitCreated} && m.Created? && IsFor(m, w.cfg.rid))
    || (w.seller.pc == SAwaitAck && m.Ack? && IsFor(m, w.cfg.rid))
  }

  lemma InitLive(cfg: Config, ledger: E.Ledger)
    requires CanSettle(cfg)
    ensures Live(Init(cfg, ledger))
  {
  }

  // Nobody fails

  lemma BuyerMoneySucceeds(w: World)
    requires Causal(w) && BuyerInv(w) && MoneyInv(w)
    requires NobodyFailed(w) && w.buyer.pc in {BDeposit, BApprove}
    ensures NobodyFailed(BuyerAct(w)) && BRank(BuyerAct(w).buyer.pc) == BRank(w.buyer.pc) + 1
  {
    if w.buyer.pc == BApprove {
      assert E.Approved(w.ledger, Ref(w), w.buyer.invoiced).Ok?;
    } else {
      assert E.Deposited(w.ledger, Ref(w), w.cfg.price).Ok?;
    }
  }

  lemma BuyerTalkSucceeds(w: World)
    requires BuyerInv(w)
    requires NobodyFailed(w) && Enabled(w, BuyerStep) && w.buyer.pc !in {BDeposit, BApprove}
    ensures NobodyFailed(BuyerAct(w)) && BRank(BuyerAct(w).buyer.pc) == BRank(w.buyer.pc) + 1
  {
    BuyerFires();
  }

  lemma BuyerActSucceeds(w: World)
    requires Inv(w) && NobodyFailed(w) && Enabled(w, BuyerStep)
    ensures NobodyFailed(BuyerAct(w)) && BRank(BuyerAct(w).buyer.pc) == BRank(w.buyer.pc) + 1
  {
    if w.buyer.pc in {BDeposit, BApprove} { BuyerMoneySucceeds(w); } else { BuyerTalkSucceeds(w); }
  }

  lemma SellerMoneySucceeds(w: World)
    requires Causal(w) && BuyerInv(w) && SellerInv(w) && MoneyInv(w)
    requires NobodyFailed(w) && w.seller.pc == SRequestRelease
    ensures NobodyFailed(SellerAct(w)) && SellerAct(w).seller.pc == SPublishInvoice
  {
    assert E.PendingTotal(map[]) == 0;
    assert E.Requested(w.ledger, E.EscrowRef(w.cfg.SellerBinding(), w.seller.escrow), w.seller.amount,
                       w.cfg.recipient, w.seller.hash.value).Ok?;
  }

  lemma SellerTalkSucceeds(w: World)
    requires SellerInv(w)
    requires NobodyFailed(w) && Enabled(w, SellerStep) && w.seller.pc != SRequestRelease
    ensures NobodyFailed(SellerAct(w)) && SRank(SellerAct(w).seller.pc) == SRank(w.seller.pc) + 1
  {
    SellerFires();
  }

  lemma SellerActSucceeds(w: World)
    requires Inv(w) && NobodyFailed(w) && Enabled(w, SellerStep)
    ensures NobodyFailed(SellerAct(w)) && SRank(SellerAct(w).seller.pc) == SRank(w.seller.pc) + 1
  {
    if w.seller.pc == SRequestRelease { SellerMoneySucceeds(w); } else { SellerTalkSucceeds(w); }
  }

  lemma BuyerWaitsForResponse(w: World, i: nat)
    requires Causal(w) && BuyerInv(w) && Enabled(w, BuyerReceive(i)) && w.buyer.pc == BAwaitResponse && SentToBuyer(w, w.toBuyer[i])
    ensures var t := Apply(w, BuyerReceive(i)).buyer;
            && t.failed == w.buyer.failed && BRank(t.pc) == BRank(w.buyer.pc) + (if BuyerNeeds(w, w.toBuyer[i]) then 1 else 0)
  {
    FireOne(A.Requested, A.Accept);
  }

  lemma BuyerWaitsForInvoice(w: World, i: nat)
    requires Causal(w) && BuyerInv(w) && Enabled(w, BuyerReceive(i)) && w.buyer.pc == BAwaitInvoice
    ensures var t := Apply(w, BuyerReceive(i)).buyer;
            && t.failed == w.buyer.failed && BRank(t.pc) == BRank(w.buyer.pc) + (if BuyerNeeds(w, w.toBuyer[i]) then 1 else 0)
  {
    FireDelivery();
  }

  /** A delivery either finishes the wait or is skipped; it never fails. */
  lemma BuyerTakesWhatItNeeds(w: World, i: nat)
    requires Causal(w) && TopicsInv(w) && BuyerInv(w) && NobodyFailed(w) && Enabled(w, BuyerReceive(i))
    ensures var v := Apply(w, BuyerReceive(i));
            && NobodyFailed(v)
            && BRank(v.buyer.pc) == BRank(w.buyer.pc) + (if BuyerNeeds(w, w.toBuyer[i]) then 1 else 0)
            && v.buyer.seen == w.buyer.seen + {i}
  {
    assert w.toBuyer[i] in w.toBuyer;
    BuyerTakesOneStep(w.buyer.(seen := w.buyer.seen + {i}), w.cfg, w.toBuyer[i]);
    if w.buyer.pc == BAwaitResponse {
      BuyerWaitsForResponse(w, i);
    } else {
      BuyerWaitsForInvoice(w, i);
    }
  }

  lemma SellerOpensAsItNeeds(w: World, i: nat)
    requires Causal(w) && TopicsInv(w) && SellerInv(w) && Enabled(w, SellerReceive(i)) && w.seller.pc != SAwaitAck
    ensures var v := Apply(w, SellerReceive(i));
            && !v.seller.failed && v.seller.seen == w.seller.seen + {i}
            && SRank(v.seller.pc) == SRank(w.seller.pc) + (if SellerNeeds(w, w.toSeller[i]) then 1 else 0)
  {
    assert w.toSeller[i] in w.toSeller;
  }

  lemma SellerSettlesAsItNeeds(w: World, i: nat)
    requires Causal(w) && TopicsInv(w) && SellerInv(w) && Enabled(w, SellerReceive(i)) && w.seller.pc == SAwaitAck
    ensures var v := Apply(w, SellerReceive(i));
            && !v.seller.failed && v.seller.seen == w.seller.seen + {i}
            && SRank(v.seller.pc) == SRank(w.seller.pc) + (if SellerNeeds(w, w.toSeller[i]) then 1 else 0)
  {
    assert w.toSeller[i] in w.toSeller;
  }

  lemma SellerTakesWhatItNeeds(w: World, i: nat)
    requires Causal(w) && TopicsInv(w) && SellerInv(w) && NobodyFailed(w) && Enabled(w, SellerReceive(i))
    ensures var v := Apply(w, SellerReceive(i));
            && NobodyFailed(v)
            && SRank(v.seller.pc) == SRank(w.seller.pc) + (if SellerNeeds(w, w.toSeller[i]) then 1 else 0)
            && v.seller.seen == w.seller.seen + {i}
  {
    if w.seller.pc == SAwaitAck {
      SellerSettlesAsItNeeds(w, i);
    } else {
      SellerOpensAsItNeeds(w, i);
    }
  }

  // Messages that were sent are there

  /** A step of the buyer takes no message away and leaves its own on the topic. */
  lemma BuyerActLeaves(w: World)
    requires Enabled(w, BuyerStep) && !BuyerAct(w).buyer.failed
    ensures var v := BuyerAct(w);
            && v.cfg == w.cfg && v.seller == w.seller && v.toBuyer == w.toBuyer && (forall m | m in w.toSeller :: m in v.toSeller)
            && (w.buyer.pc == BStart ==> Request(w.cfg.rid, w.cfg.price, w.cfg.currency) in v.toSeller)
            && (w.buyer.pc == BPublishCreated ==>
                  w.buyer.escrow.Some? && Created(w.cfg.rid, w.buyer.escrow.value, w.cfg.price, w.cfg.currency) in v.toSeller)
            && (w.buyer.pc == BAck ==> Ack(w.cfg.rid, w.buyer.invoiced, "approved") in v.toSeller)
  {
  }

  lemma BuyerActPosts(w: World)
    requires Posted(w) && Enabled(w, BuyerStep) && BRank(BuyerAct(w).buyer.pc) == BRank(w.buyer.pc) + 1 && !BuyerAct(w).buyer.failed
    ensures Posted(BuyerAct(w))
  {
    BuyerActLeaves(w);
  }

  lemma SellerActPosts(w: World)
    requires Causal(w) && SellerInv(w) && Posted(w) && Enabled(w, SellerStep) && SRank(SellerAct(w).seller.pc) == SRank(w.seller.pc) + 1
    ensures Posted(SellerAct(w))
  {
    var v := SellerAct(w);
    assert forall m | m in w.toBuyer :: m in v.toBuyer;
    match w.seller.pc
    case SRespond => assert v.toBuyer[|w.toBuyer|] == Response(w.seller.rid, "accept");
    case SPublishInvoice => assert v.toBuyer[|w.toBuyer|].Invoice?;
    case _ =>
  }

  // Nothing needed is thrown away

  /** What a step of the buyer leaves alone. */
  lemma BuyerActFrame(w: World)
    requires Enabled(w, BuyerStep)
    ensures var v := BuyerAct(w);
            && v.cfg == w.cfg && v.seller == w.seller && v.toBuyer == w.toBuyer && w.toSeller <= v.toSeller
            && (BuyerWaits(v.buyer.pc) ==> v.buyer.seen == {})
  {
  }

  lemma BuyerActLosesNothing(w: World)
    requires NothingLost(w) && Enabled(w, BuyerStep)
    ensures NothingLost(BuyerAct(w))
  {
    BuyerActFrame(w);
    KeepsSellersMessages(w, BuyerAct(w));
  }

  lemma KeepsSellersMessages(w: World, v: World)
    requires NothingLost(w) && v.cfg == w.cfg && v.seller == w.seller && w.toSeller <= v.toSeller
    requires BuyerWaits(v.buyer.pc) ==> v.buyer.seen == {}
    ensures NothingLost(v)
  {
  }

  lemma SellerActFrame(w: World)
    requires Enabled(w, SellerStep)
    ensures var v := SellerAct(w);
            && v.cfg == w.cfg && v.buyer == w.buyer && v.toSeller == w.toSeller && w.toBuyer <= v.toBuyer
            && (SellerWaits(v.seller.pc) || v.seller.pc == SRespond ==>
                  v.seller.seen == {} || (w.seller.pc == SRespond && v.seller.seen == w.seller.seen))
            && (v.seller.pc == SAwaitRequest ==> v.seller.seen == {})
            && (v.seller.pc == SAwaitAck ==> v.seller.seen == {})
  {
  }

  lemma SellerActLosesNothing(w: World)
    requires NothingLost(w) && Enabled(w, SellerStep)
    ensures NothingLost(SellerAct(w))
  {
    SellerActFrame(w);
    var v := SellerAct(w);
    forall i | i in v.seller.seen && (SellerWaits(v.seller.pc) || v.seller.pc == SRespond)
      ensures i < |v.toSeller| && !SellerNeeds(v, v.toSeller[i])
    {
      assert i in w.seller.seen && w.seller.pc == SRespond;
    }
  }

  lemma BuyerReceiveLosesNothing(w: World, i: nat)
    requires Causal(w) && TopicsInv(w) && BuyerInv(w) && NobodyFailed(w) && NothingLost(w) && Enabled(w, BuyerReceive(i))
    ensures NothingLost(Apply(w, BuyerReceive(i)))
  {
    BuyerTakesWhatItNeeds(w, i);
  }

  /** The first wait of the seller cannot take away the announcement the second one waits for:
      it is not sent before the seller has answered. */
  lemma SellerReceiveLosesNothing(w: World, i: nat)
    requires Causal(w) && TopicsInv(w) && SellerInv(w) && NobodyFailed(w) && NothingLost(w) && Enabled(w, SellerReceive(i))
    ensures NothingLost(Apply(w, SellerReceive(i)))
  {
    SellerTakesWhatItNeeds(w, i);
    assert w.toSeller[i] in w.toSeller;
    if w.seller.pc == SAwaitRequest {
      assert forall m | m in w.toSeller && m.Created? :: m.rid != w.cfg.rid;
    }
  }

  lemma NoiseKeepsLive(w: World, toBuyer: bool, m: Msg)
    requires Live(w)
    ensures Live(Publish(w, toBuyer, m))
  {
    var v := Publish(w, toBuyer, m);
    assert w.toBuyer <= v.toBuyer && w.toSeller <= v.toSeller;
    assert (forall x | x in w.toBuyer :: x in v.toBuyer) && (forall x | x in w.toSeller :: x in v.toSeller);
  }

  lemma BuyerActKeepsLive(w: World)
    requires Inv(w) && Live(w) && Enabled(w, BuyerStep)
    ensures Live(BuyerAct(w))
  {
    BuyerActSucceeds(w);
    BuyerActPosts(w);
    BuyerActLosesNothing(w);
  }

  lemma SellerActKeepsLive(w: World)
    requires Inv(w) && Live(w) && Enabled(w, SellerStep)
    ensures Live(SellerAct(w))
  {
    SellerActSucceeds(w);
    SellerActPosts(w);
    SellerActLosesNothing(w);
  }

  lemma StepKeepsLive(w: World, step: Step)
    requires Inv(w) && Live(w) && Enabled(w, step) && Faultless(step)
    ensures Live(Apply(w, step))
  {
    match step
    case BuyerStep => BuyerActKeepsLive(w);
    case BuyerReceive(i) => BuyerTakesWhatItNeeds(w, i); BuyerReceiveLosesNothing(w, i);
    case SellerStep => SellerActKeepsLive(w);
    case SellerReceive(i) => SellerTakesWhatItNeeds(w, i); SellerReceiveLosesNothing(w, i);
    case Noise(toBuyer, m) => NoiseKeepsLive(w, toBuyer, m);
    case Elsewhere(_) =>
    case _ => assert false;
  }

  lemma {:induction false} RunKeepsLive(w: World, steps: seq<Step>)
    requires Inv(w) && Live(w) && IsRun(w, steps) && forall i | 0 <= i < |steps| :: Faultless(steps[i])
    ensures Inv(End(w, steps)) && Live(End(w, steps))
    decreases |steps|
  {
    if steps != [] {
      StepKeeps(w, steps[0]);
      StepKeepsLive(w, steps[0]);
      RunKeepsLive(Apply(w, steps[0]), steps[1..]);
    }
  }

  /** A message that is on the topic and that the subscription still needs can be delivered. */
  lemma BuyerCanReceive(w: World, m: Msg) returns (step: Step)
    requires Live(w) && BuyerWaits(w.buyer.pc) && m in w.toBuyer && BuyerNeeds(w, m)
    ensures Enabled(w, step) && step.BuyerReceive?
  {
    var i :| 0 <= i < |w.toBuyer| && w.toBuyer[i] == m;
    step := BuyerReceive(i);
  }

  lemma SellerCanReceive(w: World, m: Msg) returns (step: Step)
    requires Live(w) && SellerWaits(w.seller.pc) && m in w.toSeller && SellerNeeds(w, m)
    ensures Enabled(w, step) && step.SellerReceive?
  {
    var i :| 0 <= i < |w.toSeller| && w.toSeller[i] == m;
    step := SellerReceive(i);
  }

  predicate PartyStep(step: Step)
  {
    step.BuyerStep? || step.BuyerReceive? || step.SellerStep? || step.SellerReceive?
  }

  ghost predicate BothSettled(w: World)
  {
    w.buyer.pc == BSettled && w.seller.pc == SSettled
  }

  lemma Progress(w: World) returns (step: Step)
    requires Inv(w) && Live(w) && !BothSettled(w)
    ensures Enabled(w, step) && PartyStep(step)
  {
    var rid := w.cfg.rid;
    if !BuyerWaits(w.buyer.pc) && w.buyer.pc != BSettled {
      step := BuyerStep;
    } else if !SellerWaits(w.seller.pc) && w.seller.pc != SSettled {
      step := SellerStep;
    } else if w.seller.pc == SAwaitRequest {
      var m :| m in w.toSeller && m.Request?;
      step := SellerCanReceive(w, m);
    } else if w.buyer.pc == BAwaitResponse {
      var m :| m in w.toBuyer && m.Response? && IsFor(m, rid);
      step := BuyerCanReceive(w, m);
    } else if w.seller.pc == SAwaitCreated {
      var m :| m in w.toSeller && m.Created? && IsFor(m, rid);
      step := SellerCanReceive(w, m);
    } else if w.buyer.pc == BAwaitInvoice {
      var m :| m in w.toBuyer && m.Invoice? && IsFor(m, rid);
      step := BuyerCanReceive(w, m);
    } else {
      var m :| m in w.toSeller && m.Ack? && IsFor(m, rid);
      step := SellerCanReceive(w, m);
    }
  }

  /** No lost wake-up and no deadlock.  Although each side publishes before it subscribes and the
      seller serves two waits from one subscription, in a configuration that can settle and
      without time-outs neither side ever fails, and after any run whatever one of the parties can
      go on, until both have settled. */
  lemma NoDeadlock(cfg: Config, ledger: E.Ledger, steps: seq<Step>)
    requires ValidBuyerConfig(cfg) && E.Sound(ledger) && CanSettle(cfg)
    requires IsRun(Init(cfg, ledger), steps) && forall i | 0 <= i < |steps| :: Faultless(steps[i])
    ensures var w := End(Init(cfg, ledger), steps);
            && !w.buyer.failed && !w.seller.failed
            && (BothSettled(w) || exists step :: Enabled(w, step) && PartyStep(step))
  {
    InitInv(cfg, ledger);
    InitLive(cfg, ledger);
    RunKeepsLive(Init(cfg, ledger), steps);
    var w := End(Init(cfg, ledger), steps);
    if !BothSettled(w) {
      var step := Progress(w);
    }
  }

  // ----- termination

  /** Messages the current subscription and those still to be opened can deliver. */
  function BuyerUnread(w: World): int
  {
    var n, r := |w.toBuyer|, BRank(w.buyer.pc);
    if r < 2 then 2 * n else if r == 2 then 2 * n - |w.buyer.seen| else if r < 7 then n
    else if r == 7 then n - |w.buyer.seen| else 0
  }

  function SellerUnread(w: World): int
  {
    var n, r := |w.toSeller|, SRank(w.seller.pc);
    if r < 1 then 2 * n else if r < 4 then 2 * n - |w.seller.seen| else if r < 8 then n
    else if r == 8 then n - |w.seller.seen| else 0
  }

  /** Bounds the steps the parties can still make. */
  function Potential(w: World): int
  {
    3 * (10 - BRank(w.buyer.pc)) + 3 * (9 - SRank(w.seller.pc)) + BuyerUnread(w) + SellerUnread(w)
    + (if w.buyer.failed then 0 else 3) + (if w.seller.failed then 0 else 3)
  }

  ghost predicate SeenInRange(w: World)
  {
    && (BuyerWaits(w.buyer.pc) ==> forall i | i in w.buyer.seen :: i < |w.toBuyer|)
    && (1 <= SRank(w.seller.pc) <= 3 || w.seller.pc == SAwaitAck ==> forall i | i in w.seller.seen :: i < |w.toSeller|)
  }

  /** A set of indices into a sequence of length n has at most n elements. */
  lemma {:induction false} IndexSetSize(s: set<nat>, n: nat)
    requires forall i | i in s :: i < n
    ensures |s| <= n
  {
    if n > 0 {
      assert s - {n - 1} + {n - 1} >= s;
      IndexSetSize(s - {n - 1}, n - 1);
    } else {
      assert s == {};
    }
  }

  lemma SeenSizes(w: World)
    requires SeenInRange(w)
    ensures BuyerWaits(w.buyer.pc) ==> |w.buyer.seen| <= |w.toBuyer|
    ensures 1 <= SRank(w.seller.pc) <= 3 || w.seller.pc == SAwaitAck ==> |w.seller.seen| <= |w.toSeller|
  {
    if BuyerWaits(w.buyer.pc) {
      IndexSetSize(w.buyer.seen, |w.toBuyer|);
    }
    if 1 <= SRank(w.seller.pc) <= 3 || w.seller.pc == SAwaitAck {
      IndexSetSize(w.seller.seen, |w.toSeller|);
    }
  }

  predicate FromOutside(step: Step)
  {
    step.Noise? || step.Elsewhere?
  }

  /** A step of the buyer advances it, or fails; either way it may have sent a message. */
  lemma BuyerActMoves(w: World)
    requires Enabled(w, BuyerStep)
    ensures var v := BuyerAct(w);
            && v.seller == w.seller && v.toBuyer == w.toBuyer && |w.toSeller| <= |v.toSeller| <= |w.toSeller| + 1
            && (BRank(v.buyer.pc) == BRank(w.buyer.pc) + 1 || (v.buyer.pc == w.buyer.pc && v.buyer.failed))
            && (BuyerWaits(v.buyer.pc) ==> v.buyer.seen == {})
  {
  }

  lemma BuyerActCosts(w: World)
    requires SeenInRange(w) && Enabled(w, BuyerStep)
    ensures SeenInRange(BuyerAct(w)) && Potential(BuyerAct(w)) < Potential(w)
  {
    BuyerActMoves(w);
    assert SellerUnread(BuyerAct(w)) <= SellerUnread(w) + 2;
  }

  lemma BuyerTakesOneStep(b: Buyer, cfg: Config, m: Msg)
    requires BuyerWaits(b.pc)
    ensures var t := BuyerTakes(b, cfg, m);
            t.seen == b.seen && (t == b || (t.pc == b.pc && t.failed) || (BRank(t.pc) == BRank(b.pc) + 1 && t.failed == b.failed))
  {
  }

  lemma BuyerReceiveCosts(w: World, i: nat)
    requires SeenInRange(w) && Enabled(w, BuyerReceive(i))
    ensures SeenInRange(Apply(w, BuyerReceive(i))) && Potential(Apply(w, BuyerReceive(i))) < Potential(w)
  {
    BuyerTakesOneStep(w.buyer.(seen := w.buyer.seen + {i}), w.cfg, w.toBuyer[i]);
    BuyerHeardCosts(w, i, BuyerTakes(w.buyer.(seen := w.buyer.seen + {i}), w.cfg, w.toBuyer[i]));
  }

  lemma BuyerHeardCosts(w: World, i: nat, t: Buyer)
    requires SeenInRange(w) && Enabled(w, BuyerReceive(i)) && t.seen == w.buyer.seen + {i}
    requires (t.pc == w.buyer.pc && (w.buyer.failed ==> t.failed)) || (BRank(t.pc) == BRank(w.buyer.pc) + 1 && t.failed == w.buyer.failed)
    ensures SeenInRange(w.(buyer := t)) && Potential(w.(buyer := t)) < Potential(w)
  {
    SeenSizes(w);
    assert |w.buyer.seen + {i}| == |w.buyer.seen| + 1;
  }

  lemma SellerActCosts(w: World)
    requires SeenInRange(w) && Enabled(w, SellerStep)
    ensures SeenInRange(SellerAct(w)) && Potential(SellerAct(w)) < Potential(w)
  {
    SellerActMoves(w);
    assert BuyerUnread(SellerAct(w)) <= BuyerUnread(w) + 2;
  }

  lemma SellerActMoves(w: World)
    requires Enabled(w, SellerStep)
    ensures var v, s, t := SellerAct(w), w.seller, SellerAct(w).seller;
            && v.buyer == w.buyer && v.toSeller == w.toSeller && |w.toBuyer| <= |v.toBuyer| <= |w.toBuyer| + 1
            && (SRank(t.pc) == SRank(s.pc) + 1 || (t.pc == s.pc && t.failed))
            && (t.pc == SAwaitRequest || t.pc == SAwaitAck ==> t.seen == {})
            && (s.pc == SRespond ==> t.seen == s.seen)
  {
  }

  lemma SellerTakesOneStep(s: Seller, m: Msg)
    requires SellerWaits(s.pc)
    ensures var t := SellerTakes(s, m);
            t.seen == s.seen && (t == s || (t.pc == s.pc && t.failed) || (SRank(t.pc) == SRank(s.pc) + 1 && t.failed == s.failed))
  {
  }

  lemma SellerReceiveCosts(w: World, i: nat)
    requires SeenInRange(w) && Enabled(w, SellerReceive(i))
    ensures SeenInRange(Apply(w, SellerReceive(i))) && Potential(Apply(w, SellerReceive(i))) < Potential(w)
  {
    SellerTakesOneStep(w.seller.(seen := w.seller.seen + {i}), w.toSeller[i]);
    SellerHeardCosts(w, i, SellerTakes(w.seller.(seen := w.seller.seen + {i}), w.toSeller[i]));
  }

  lemma SellerHeardCosts(w: World, i: nat, t: Seller)
    requires SeenInRange(w) && Enabled(w, SellerReceive(i)) && t.seen == w.seller.seen + {i}
    requires (t.pc == w.seller.pc && (w.seller.failed ==> t.failed)) || (SRank(t.pc) == SRank(w.seller.pc) + 1 && t.failed == w.seller.failed)
    ensures SeenInRange(w.(seller := t)) && Potential(w.(seller := t)) < Potential(w)
  {
    SeenSizes(w);
    assert |w.seller.seen + {i}| == |w.seller.seen| + 1;
  }

  lemma PartyStepCosts(w: World, step: Step)
    requires SeenInRange(w) && Enabled(w, step) && !FromOutside(step)
    ensures SeenInRange(Apply(w, step)) && Potential(Apply(w, step)) < Potential(w)
  {
    match step
    case BuyerStep => BuyerActCosts(w);
    case BuyerReceive(i) => BuyerReceiveCosts(w, i);
    case SellerStep => SellerActCosts(w);
    case SellerReceive(i) => SellerReceiveCosts(w, i);
    case _ =>
  }

  lemma NoiseToBuyerCosts(w: World, m: Msg)
    requires SeenInRange(w)
    ensures SeenInRange(Publish(w, true, m)) && Potential(Publish(w, true, m)) <= Potential(w) + 2
  {
    var v := Publish(w, true, m);
    assert |v.toBuyer| == |w.toBuyer| + 1;
    assert BuyerUnread(v) <= BuyerUnread(w) + 2;
  }

  lemma NoiseToSellerCosts(w: World, m: Msg)
    requires SeenInRange(w)
    ensures SeenInRange(Publish(w, false, m)) && Potential(Publish(w, false, m)) <= Potential(w) + 2
  {
    var v := Publish(w, false, m);
    assert |v.toSeller| == |w.toSeller| + 1;
    assert SellerUnread(v) <= SellerUnread(w) + 2;
  }

  lemma OutsideStepCosts(w: World, step: Step)
    requires SeenInRange(w) && Enabled(w, step) && FromOutside(step)
    ensures SeenInRange(Apply(w, step)) && Potential(Apply(w, step)) <= Potential(w) + (if step.Noise? then 2 else 0)
  {
    if step.Noise? && step.toBuyer {
      NoiseToBuyerCosts(w, step.m);
    } else if step.Noise? {
      NoiseToSellerCosts(w, step.m);
    }
  }

  function PartySteps(steps: seq<Step>): nat
  {
    if steps == [] then 0 else (if FromOutside(steps[0]) then 0 else 1) + PartySteps(steps[1..])
  }

  function NoiseSteps(steps: seq<Step>): nat
  {
    if steps == [] then 0 else (if steps[0].Noise? then 1 else 0) + NoiseSteps(steps[1..])
  }

  lemma {:induction false} StepsBounded(w: World, steps: seq<Step>)
    requires SeenInRange(w) && IsRun(w, steps)
    ensures PartySteps(steps) <= Potential(w) + 2 * NoiseSteps(steps)
    decreases |steps|
  {
    SeenSizes(w);
    if steps != [] {
      var step := steps[0];
      if FromOutside(step) {
        OutsideStepCosts(w, step);
      } else {
        PartyStepCosts(w, step);
      }
      StepsBounded(Apply(w, step), steps[1..]);
    }
  }

  /** Together with NoDeadlock: unless foreign messages keep coming in for ever, every run ends, and
      one without time-outs in a configuration that can settle ends with both sides settled. */
  lemma RunsAreBounded(cfg: Config, ledger: E.Ledger, steps: seq<Step>)
    requires IsRun(Init(cfg, ledger), steps)
    ensures PartySteps(steps) <= 63 + 2 * NoiseSteps(steps)
  {
    StepsBounded(Init(cfg, ledger), steps);
  }

  ghost predicate OnCourse(w: World)
  {
    Inv(w) && Live(w) && SeenInRange(w)
  }

  lemma StayOnCourse(w: World) returns (step: Step)
    requires OnCourse(w) && !BothSettled(w)
    ensures Enabled(w, step) && OnCourse(Apply(w, step)) && Potential(Apply(w, step)) < Potential(w)
  {
    step := Progress(w);
    StepKeeps(w, step);
    StepKeepsLive(w, step);
    PartyStepCosts(w, step);
  }

  lemma {:induction false} FaultlessRunsStayOnCourse(w: World, steps: seq<Step>)
    requires OnCourse(w) && IsRun(w, steps) && forall i | 0 <= i < |steps| :: Faultless(steps[i])
    ensures OnCourse(End(w, steps))
    decreases |steps|
  {
    if steps != [] {
      var step := steps[0];
      StepKeeps(w, step);
      StepKeepsLive(w, step);
      if FromOutside(step) {
        OutsideStepCosts(w, step);
      } else {
        PartyStepCosts(w, step);
      }
      FaultlessRunsStayOnCourse(Apply(w, step), steps[1..]);
    }
  }

  lemma StartOnCourse(cfg: Config, ledger: E.Ledger)
    requires ValidBuyerConfig(cfg) && E.Sound(ledger) && CanSettle(cfg)
    ensures OnCourse(Init(cfg, ledger))
  {
    InitInv(cfg, ledger);
    InitLive(cfg, ledger);
  }

  lemma OnCoursePotential(w: World)
    requires SeenInRange(w)
    ensures Potential(w) >= 0
  {
    SeenSizes(w);
  }

  lemma {:induction false} Finish(w: World) returns (steps: seq<Step>)
    requires OnCourse(w)
    ensures IsRun(w, steps) && BothSettled(End(w, steps))
    decreases Potential(w)
  {
    OnCoursePotential(w);
    if BothSettled(w) {
      steps := [];
    } else {
      var step := StayOnCourse(w);
      var rest := Finish(Apply(w, step));
      steps := [step] + rest;
      assert steps[1..] == rest;
    }
  }

  lemma SettledNeeds(w: World)
    requires Inv(w) && w.seller.pc == SSettled
    ensures CanSettle(w.cfg)
  {
  }

  lemma OnlyTheseSettle(cfg: Config, ledger: E.Ledger, steps: seq<Step>)
    requires ValidBuyerConfig(cfg) && E.Sound(ledger)
    requires IsRun(Init(cfg, ledger), steps) && End(Init(cfg, ledger), steps).seller.pc == SSettled
    ensures CanSettle(cfg)
  {
    InitInv(cfg, ledger);
    RunKeeps(Init(cfg, ledger), steps);
    SettledNeeds(End(Init(cfg, ledger), steps));
  }

  lemma TheseSettle(cfg: Config, ledger: E.Ledger) returns (steps: seq<Step>)
    requires ValidBuyerConfig(cfg) && E.Sound(ledger) && CanSettle(cfg)
    ensures IsRun(Init(cfg, ledger), steps) && BothSettled(End(Init(cfg, ledger), steps))
  {
    InitInv(cfg, ledger);
    InitLive(cfg, ledger);
    steps := Finish(Init(cfg, ledger));
  }

  ghost predicate SellerCanSettle(cfg: Config, ledger: E.Ledger)
  {
    exists steps: seq<Step> :: IsRun(Init(cfg, ledger), steps) && End(Init(cfg, ledger), steps).seller.pc == SSettled
  }

  /** Settlement is possible exactly in the configurations that CanSettle names: a positive price,
      a seller with its own escrow adapter and address, and the binding of the shared escrow. */
  lemma SettlesIff(cfg: Config, ledger: E.Ledger)
    requires ValidBuyerConfig(cfg) && E.Sound(ledger)
    ensures SellerCanSettle(cfg, ledger) <==> CanSettle(cfg)
    ensures SellerCanSettle(cfg, ledger) <==>
            && E.ParseAmount(cfg.price).Some? && E.ParseAmount(cfg.price).value > 0
            && cfg.sellerHasEscrow && cfg.recipient != "" && cfg.binding == "memory"
  {
    if CanSettle(cfg) {
      var steps := TheseSettle(cfg, ledger);
    }
    if SellerCanSettle(cfg, ledger) {
      var steps: seq<Step> :| IsRun(Init(cfg, ledger), steps) && End(Init(cfg, ledger), steps).seller.pc == SSettled;
      OnlyTheseSettle(cfg, ledger, steps);
    }
  }
}
