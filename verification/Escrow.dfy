/**
 MemoryEscrow, the in-memory escrow adapter: accounts that are created, funded, released in two
 steps (request, approve) and refunded.

 The operations are functions from one ledger to the next; the class keeps such a ledger in its
 fields and its methods are proved to take exactly those steps.
 */
module Escrow {
  import opened Prelude

  type Hash = seq<char>

  datatype Pending = Pending(amount: int, recipient: string, evidenceHash: Hash)

  datatype Phase = Created | Funded | Released | Refunded

  datatype Account = Account(
    buyer: string, seller: string, currency: string, agreementHash: Hash, timeout: nat,
    balance: int, released: int, phase: Phase, releases: map<nat, Pending>)

  /** mem-escrow-n under the binding a caller claims for it. */
  datatype EscrowRef = EscrowRef(binding: string, locator: nat)

  /** mem-release-n, or a string that came from elsewhere. */
  datatype ReleaseRef = MemRelease(n: nat) | Placeholder(text: string)

  datatype EscrowError = InvalidEscrowRef | EscrowCreationFailed | InsufficientBalance | ReleaseNotAuthorized | TimeoutNotElapsed

  datatype Ledger = Ledger(escrows: map<nat, Account>, nextID: nat, releaseID: nat, clock: nat)

  // ----- decimal amounts

  predicate IsDigit(c: char)
  {
    '0' <= c <= '9'
  }

  function DigitValue(c: char): nat
    requires IsDigit(c)
  {
    c as int - '0' as int
  }

  /** The number a non-empty digit string denotes, None for any other string. */
  function Digits(s: string): Option<nat>
  {
    if s == [] || !IsDigit(s[|s| - 1]) then None
    else if |s| == 1 then Some(DigitValue(s[0]))
    else
      match Digits(s[..|s| - 1])
      case None => None
      case Some(n) => Some(10 * n + DigitValue(s[|s| - 1]))
  }

  /** big.Int.SetString(s, 10): an optional sign and digits. */
  function ParseAmount(s: string): Option<int>
  {
    if s != [] && s[0] == '+' then Signed(1, Digits(s[1..]))
    else if s != [] && s[0] == '-' then Signed(-1, Digits(s[1..]))
    else Signed(1, Digits(s))
  }

  function Signed(sign: int, n: Option<nat>): Option<int>
  {
    match n case None => None case Some(v) => Some(sign * v)
  }

  // ----- pending releases

  ghost function PendingTotal(m: map<nat, Pending>): int
    decreases |m|
  {
    if m == map[] then 0
    else
      var k :| k in m;
      m[k].amount + PendingTotal(m - {k})
  }

  lemma {:induction false} PendingTotalMinus(m: map<nat, Pending>, k: nat)
    requires k in m
    ensures PendingTotal(m) == m[k].amount + PendingTotal(m - {k})
    decreases |m|
  {
    var j :| j in m && PendingTotal(m) == m[j].amount + PendingTotal(m - {j});
    if j != k {
      PendingTotalMinus(m - {j}, k);
      PendingTotalMinus(m - {k}, j);
      assert m - {j} - {k} == m - {k} - {j};
    }
  }

  lemma PendingTotalPlus(m: map<nat, Pending>, k: nat, p: Pending)
    requires k !in m
    ensures PendingTotal(m[k := p]) == PendingTotal(m) + p.amount
  {
    PendingTotalMinus(m[k := p], k);
    assert m[k := p] - {k} == m;
  }

  // ----- the operations

  function Lookup(l: Ledger, ref: EscrowRef): Option<Account>
  {
    if ref.binding == "memory" && ref.locator in l.escrows then Some(l.escrows[ref.locator]) else None
  }

  function NewAccount(l: Ledger, buyer: string, seller: string, currency: string, hash: Hash, timeout: nat): Ledger
  {
    l.(nextID := l.nextID + 1,
       escrows := l.escrows[l.nextID + 1 := Account(buyer, seller, currency, hash, timeout, 0, 0, Created, map[])])
  }

  function Deposited(l: Ledger, ref: EscrowRef, amount: string): Result<Ledger, EscrowError>
  {
    match Lookup(l, ref)
    case None => Err(InvalidEscrowRef)
    case Some(a) =>
      match ParseAmount(amount)
      case None => Err(EscrowCreationFailed)
      case Some(n) =>
        if n <= 0 then Err(EscrowCreationFailed)
        else Ok(l.(escrows := l.escrows[ref.locator :=
                     a.(balance := a.balance + n, phase := if a.phase == Created then Funded else a.phase)]))
  }

  ghost function Requested(l: Ledger, ref: EscrowRef, amount: string, recipient: string, evidence: Hash): Result<Ledger, EscrowError>
  {
    match Lookup(l, ref)
    case None => Err(InvalidEscrowRef)
    case Some(a) =>
      match ParseAmount(amount)
      case None => Err(InsufficientBalance)
      case Some(n) =>
        if n <= 0 || n > a.balance - PendingTotal(a.releases) then Err(InsufficientBalance)
        else
          var r := l.releaseID + 1;
          Ok(l.(releaseID := r,
                escrows := l.escrows[ref.locator := a.(releases := a.releases[r := Pending(n, recipient, evidence)])]))
  }

  function Approved(l: Ledger, ref: EscrowRef, release: ReleaseRef): Result<Ledger, EscrowError>
  {
    match Lookup(l, ref)
    case None => Err(InvalidEscrowRef)
    case Some(a) =>
      if !release.MemRelease? || release.n !in a.releases then Err(ReleaseNotAuthorized)
      else
        var p := a.releases[release.n];
        Ok(l.(escrows := l.escrows[ref.locator :=
                a.(balance := a.balance - p.amount, released := a.released + p.amount,
                   releases := a.releases - {release.n}, phase := Released)]))
  }

  function Reclaimed(l: Ledger, ref: EscrowRef): Result<Ledger, EscrowError>
  {
    match Lookup(l, ref)
    case None => Err(InvalidEscrowRef)
    case Some(a) =>
      if l.clock < a.timeout then Err(TimeoutNotElapsed)
      else Ok(l.(escrows := l.escrows[ref.locator := a.(phase := Refunded, balance := 0, releases := map[])]))
  }

  /** What an account is opened with. */
  datatype Terms = Terms(buyer: string, seller: string, currency: string, agreementHash: Hash, timeout: nat)

  function TermsOf(a: Account): Terms
  {
    Terms(a.buyer, a.seller, a.currency, a.agreementHash, a.timeout)
  }

  /** Result of an approval: what is paid out and to whom. */
  datatype Release = Release(amount: int, recipient: string)

  class MemoryEscrow {
    var escrows: map<nat, Account>
    var nextID: nat
    var releaseID: nat
    var clock: nat

    function View(): Ledger
      reads this
    {
      Ledger(escrows, nextID, releaseID, clock)
    }

    constructor ()
      ensures View() == Ledger(map[], 0, 0, 0)
    {
      escrows, nextID, releaseID, clock := map[], 0, 0, 0;
    }

    method SetClock(now: nat)
      modifies this
      ensures View() == old(View()).(clock := now)
    {
      clock := now;
    }

    method CreateEscrow(buyer: string, seller: string, currency: string, hash: Hash, timeout: nat) returns (ref: EscrowRef)
      modifies this
      ensures View() == old(NewAccount(View(), buyer, seller, currency, hash, timeout))
      ensures ref == EscrowRef("memory", nextID) && nextID == old(nextID) + 1
      ensures TermsOf(escrows[nextID]) == Terms(buyer, seller, currency, hash, timeout)
      ensures escrows[nextID].balance == 0 && escrows[nextID].phase == Created
    {
      nextID := nextID + 1;
      escrows := escrows[nextID := Account(buyer, seller, currency, hash, timeout, 0, 0, Created, map[])];
      ref := EscrowRef("memory", nextID);
    }

    method Deposit(ref: EscrowRef, amount: string) returns (r: Result<int, EscrowError>)
      modifies this
      ensures match old(Deposited(View(), ref, amount))
              case Err(e) => r == Err(e) && View() == old(View())
              case Ok(l) => View() == l && r == Ok(l.escrows[ref.locator].balance)
      ensures r.Ok? <==> ref.binding == "memory" && ref.locator in old(escrows) && ParseAmount(amount).Some? && ParseAmount(amount).value > 0
      ensures r.Ok? ==> escrows[ref.locator].balance == old(escrows)[ref.locator].balance + ParseAmount(amount).value
    {
      var found := Lookup(View(), ref);
      if found.None? {
        return Err(InvalidEscrowRef);
      }
      var amt := ParseAmount(amount);
      if amt.None? || amt.value <= 0 {
        return Err(EscrowCreationFailed);
      }
      var a := found.value;
      a := a.(balance := a.balance + amt.value);
      if a.phase == Created {
        a := a.(phase := Funded);
      }
      escrows := escrows[ref.locator := a];
      return Ok(a.balance);
    }

    /** The loop of available(): balance minus what is requested but not yet approved. */
    method Available(a: Account) returns (available: int)
      ensures available == a.balance - PendingTotal(a.releases)
    {
      var rest := a.releases;
      var total := 0;
      while rest.Keys != {}
        invariant total + PendingTotal(rest) == PendingTotal(a.releases)
        decreases |rest|
      {
        var k :| k in rest.Keys;
        PendingTotalMinus(rest, k);
        total := total + rest[k].amount;
        rest := rest - {k};
      }
      assert rest == map[];
      available := a.balance - total;
    }

    method GetBalance(ref: EscrowRef) returns (r: Result<int, EscrowError>)
      ensures match Lookup(View(), ref)
              case None => r == Err(InvalidEscrowRef)
              case Some(a) => r == Ok(a.balance - PendingTotal(a.releases))
    {
      var found := Lookup(View(), ref);
      if found.None? {
        return Err(InvalidEscrowRef);
      }
      var available := Available(found.value);
      return Ok(available);
    }

    method RequestRelease(ref: EscrowRef, amount: string, recipient: string, evidence: Hash) returns (r: Result<ReleaseRef, EscrowError>)
      modifies this
      ensures match old(Requested(View(), ref, amount, recipient, evidence))
              case Err(e) => r == Err(e) && View() == old(View())
              case Ok(l) => View() == l && r == Ok(MemRelease(l.releaseID))
      ensures r.Ok? <==>
                && ref.binding == "memory" && ref.locator in old(escrows) && ParseAmount(amount).Some?
                && var a := old(escrows)[ref.locator]; 0 < ParseAmount(amount).value <= a.balance - PendingTotal(a.releases)
      ensures r.Ok? ==> releaseID == old(releaseID) + 1
      ensures r.Ok? ==> escrows[ref.locator].releases ==
                        old(escrows)[ref.locator].releases[releaseID := Pending(ParseAmount(amount).value, recipient, evidence)]
    {
      var found := Lookup(View(), ref);
      if found.None? {
        return Err(InvalidEscrowRef);
      }
      var amt := ParseAmount(amount);
      if amt.None? || amt.value <= 0 {
        return Err(InsufficientBalance);
      }
      var a := found.value;
      var avail := Available(a);
      if amt.value > avail {
        return Err(InsufficientBalance);
      }
      releaseID := releaseID + 1;
      escrows := escrows[ref.locator := a.(releases := a.releases[releaseID := Pending(amt.value, recipient, evidence)])];
      return Ok(MemRelease(releaseID));
    }

    method ApproveRelease(ref: EscrowRef, release: ReleaseRef) returns (r: Result<Release, EscrowError>)
      modifies this
      ensures match old(Approved(View(), ref, release))
              case Err(e) => r == Err(e) && View() == old(View())
              case Ok(l) =>
                && View() == l
                && var p := old(escrows)[ref.locator].releases[release.n]; r == Ok(Release(p.amount, p.recipient))
      ensures r.Ok? <==>
                ref.binding == "memory" && ref.locator in old(escrows) && release.MemRelease? && release.n in old(escrows)[ref.locator].releases
      ensures r.Ok? ==>
                var a, b := old(escrows)[ref.locator], escrows[ref.locator];
                && b.balance == a.balance - r.value.amount && b.released == a.released + r.value.amount
                && b.releases == a.releases - {release.n}
    {
      var found := Lookup(View(), ref);
      if found.None? {
        return Err(InvalidEscrowRef);
      }
      var a := found.value;
      if !release.MemRelease? || release.n !in a.releases {
        return Err(ReleaseNotAuthorized);
      }
      var p := a.releases[release.n];
      a := a.(balance := a.balance - p.amount, released := a.released + p.amount);
      a := a.(releases := a.releases - {release.n}, phase := Released);
      escrows := escrows[ref.locator := a];
      return Ok(Release(p.amount, p.recipient));
    }

    method ClaimRefund(ref: EscrowRef) returns (err: Option<EscrowError>)
      modifies this
      ensures match old(Reclaimed(View(), ref))
              case Err(e) => err == Some(e) && View() == old(View())
              case Ok(l) => View() == l && err == None
      ensures err == None <==> ref.binding == "memory" && ref.locator in old(escrows) && clock >= old(escrows)[ref.locator].timeout
      ensures err == None ==> escrows[ref.locator].balance == 0 && escrows[ref.locator].releases == map[]
    {
      var found := Lookup(View(), ref);
      if found.None? {
        return Some(InvalidEscrowRef);
      }
      if clock < found.value.timeout {
        return Some(TimeoutNotElapsed);
      }
      escrows := escrows[ref.locator := found.value.(phase := Refunded, balance := 0, releases := map[])];
      return None;
    }
  }

  // ----- every run of operations

  datatype Op =
    | Create(buyer: string, seller: string, currency: string, hash: Hash, timeout: nat)
    | Deposit(ref: EscrowRef, amount: string)
    | Request(ref: EscrowRef, amount: string, recipient: string, evidence: Hash)
    | Approve(ref: EscrowRef, release: ReleaseRef)
    | Refund(ref: EscrowRef)
    | SetClock(now: nat)

  ghost function Attempt(l: Ledger, op: Op): Result<Ledger, EscrowError>
  {
    match op
    case Create(b, s, c, h, t) => Ok(NewAccount(l, b, s, c, h, t))
    case Deposit(ref, amount) => Deposited(l, ref, amount)
    case Request(ref, amount, to, evidence) => Requested(l, ref, amount, to, evidence)
    case Approve(ref, release) => Approved(l, ref, release)
    case Refund(ref) => Reclaimed(l, ref)
    case SetClock(now) => Ok(l.(clock := now))
  }

  /** Each operation has its one reason to be refused, besides an unknown account. */
  lemma RefusalReasons(l: Ledger, op: Op)
    requires Attempt(l, op).Err?
    ensures !op.Create? && !op.SetClock?
    ensures Attempt(l, op).error == InvalidEscrowRef <==> op.ref.binding != "memory" || op.ref.locator !in l.escrows
    ensures op.ref.binding == "memory" && op.ref.locator in l.escrows ==>
              Attempt(l, op).error ==
              match op
              case Deposit(_, _) => EscrowCreationFailed
              case Request(_, _, _, _) => InsufficientBalance
              case Approve(_, _) => ReleaseNotAuthorized
              case _ => TimeoutNotElapsed
  {
  }

  /** A refused operation changes nothing. */
  ghost function Do(l: Ledger, op: Op): Ledger
  {
    match Attempt(l, op) case Ok(n) => n case Err(_) => l
  }

  ghost function DoAll(l: Ledger, ops: seq<Op>): Ledger
    decreases |ops|
  {
    if ops == [] then l else DoAll(Do(l, ops[0]), ops[1..])
  }

  /** Pending requests never exceed the balance, so no balance ever becomes negative, and every
      identifier in use was handed out before. */
  ghost predicate Sound(l: Ledger)
  {
    forall k | k in l.escrows ::
      && 0 < k <= l.nextID
      && SoundAccount(l.escrows[k], l.releaseID)
  }

  ghost predicate SoundAccount(a: Account, releaseID: nat)
  {
    && 0 <= PendingTotal(a.releases) <= a.balance
    && 0 <= a.released
    && forall r | r in a.releases :: 0 < r <= releaseID && a.releases[r].amount > 0
  }

  lemma {:induction false} PendingTotalPositive(m: map<nat, Pending>)
    requires forall r | r in m :: m[r].amount > 0
    ensures PendingTotal(m) >= 0
    decreases |m|
  {
    if m != map[] {
      var k :| k in m;
      PendingTotalMinus(m, k);
      PendingTotalPositive(m - {k});
    }
  }

  lemma RequestSound(a: Account, releaseID: nat, p: Pending)
    requires SoundAccount(a, releaseID) && 0 < p.amount <= a.balance - PendingTotal(a.releases)
    ensures SoundAccount(a.(releases := a.releases[releaseID + 1 := p]), releaseID + 1)
  {
    PendingTotalPlus(a.releases, releaseID + 1, p);
  }

  lemma ApproveSound(a: Account, releaseID: nat, r: nat)
    requires SoundAccount(a, releaseID) && r in a.releases
    ensures var p := a.releases[r];
            SoundAccount(a.(balance := a.balance - p.amount, released := a.released + p.amount,
                            releases := a.releases - {r}, phase := Released), releaseID)
  {
    PendingTotalMinus(a.releases, r);
    PendingTotalPositive(a.releases - {r});
  }

  lemma DoSound(l: Ledger, op: Op)
    requires Sound(l)
    ensures Sound(Do(l, op)) && l.nextID <= Do(l, op).nextID && l.releaseID <= Do(l, op).releaseID
  {
    match op
    case Request(ref, amount, to, evidence) =>
      if Attempt(l, op).Ok? {
        RequestSound(l.escrows[ref.locator], l.releaseID, Pending(ParseAmount(amount).value, to, evidence));
      }
    case Approve(ref, release) =>
      if Attempt(l, op).Ok? {
        ApproveSound(l.escrows[ref.locator], l.releaseID, release.n);
      }
    case _ =>
  }

  /** What a run puts into, pays out of and gives back from one account. */
  ghost function PutIn(l: Ledger, ops: seq<Op>, k: nat): int
    decreases |ops|
  {
    if ops == [] then 0
    else
      (if ops[0].Deposit? && ops[0].ref.locator == k && Attempt(l, ops[0]).Ok? then ParseAmount(ops[0].amount).value else 0)
      + PutIn(Do(l, ops[0]), ops[1..], k)
  }

  ghost function PaidOut(l: Ledger, ops: seq<Op>, k: nat): int
    decreases |ops|
  {
    if ops == [] then 0
    else
      (if ops[0].Approve? && ops[0].ref.locator == k && Attempt(l, ops[0]).Ok?
       then l.escrows[k].releases[ops[0].release.n].amount else 0)
      + PaidOut(Do(l, ops[0]), ops[1..], k)
  }

  ghost function GivenBack(l: Ledger, ops: seq<Op>, k: nat): int
    decreases |ops|
  {
    if ops == [] then 0
    else
      (if ops[0].Refund? && ops[0].ref.locator == k && Attempt(l, ops[0]).Ok? then l.escrows[k].balance else 0)
      + GivenBack(Do(l, ops[0]), ops[1..], k)
  }

  function Balance(l: Ledger, k: nat): int
  {
    if k in l.escrows then l.escrows[k].balance else 0
  }

  function ReleasedSoFar(l: Ledger, k: nat): int
  {
    if k in l.escrows then l.escrows[k].released else 0
  }

  lemma DoConserves(l: Ledger, op: Op, k: nat)
    requires Sound(l)
    ensures Balance(Do(l, op), k)
            == Balance(l, k) + PutIn(l, [op], k) - PaidOut(l, [op], k) - GivenBack(l, [op], k)
    ensures ReleasedSoFar(Do(l, op), k) == ReleasedSoFar(l, k) + PaidOut(l, [op], k)
  {
    assert [op][1..] == [];
    assert PutIn(Do(l, op), [], k) == PaidOut(Do(l, op), [], k) == GivenBack(Do(l, op), [], k) == 0;
  }

  /** Conservation over every sequence of operations, for every account: what was deposited is
      what is left plus what was released plus what was refunded; what the account reports as
      released is what was paid out; and neither is ever negative. */
  lemma {:induction false} Conservation(l: Ledger, ops: seq<Op>, k: nat)
    requires Sound(l)
    ensures Sound(DoAll(l, ops))
    ensures Balance(DoAll(l, ops), k) == Balance(l, k) + PutIn(l, ops, k) - PaidOut(l, ops, k) - GivenBack(l, ops, k)
    ensures ReleasedSoFar(DoAll(l, ops), k) == ReleasedSoFar(l, k) + PaidOut(l, ops, k)
    decreases |ops|
  {
    if ops != [] {
      var op := ops[0];
      DoSound(l, op);
      DoConserves(l, op, k);
      assert [op][1..] == [];
      assert PutIn(Do(l, op), [], k) == PaidOut(Do(l, op), [], k) == GivenBack(Do(l, op), [], k) == 0;
      Conservation(Do(l, op), ops[1..], k);
    }
  }

  lemma {:induction false} UnknownStaysUnknown(l: Ledger, ops: seq<Op>, k: nat, r: nat)
    requires Sound(l) && r <= l.releaseID && k in l.escrows && r !in l.escrows[k].releases
    ensures k in DoAll(l, ops).escrows && r !in DoAll(l, ops).escrows[k].releases
    decreases |ops|
  {
    if ops != [] {
      DoSound(l, ops[0]);
      assert k in Do(l, ops[0]).escrows && r !in Do(l, ops[0]).escrows[k].releases;
      UnknownStaysUnknown(Do(l, ops[0]), ops[1..], k, r);
    }
  }

  /** A release is approved at most once: after an approval, whatever operations follow, approving
      the same reference again is refused. */
  lemma ApprovedOnce(l: Ledger, ref: EscrowRef, release: ReleaseRef, ops: seq<Op>)
    requires Sound(l) && Approved(l, ref, release).Ok?
    ensures Approved(DoAll(Approved(l, ref, release).value, ops), ref, release).Err?
  {
    DoSound(l, Approve(ref, release));
    UnknownStaysUnknown(Approved(l, ref, release).value, ops, ref.locator, release.n);
  }

  // ----- the terms of an account

  /** No operation changes the terms of an account, and none takes it away. */
  lemma {:induction false} TermsStay(l: Ledger, ops: seq<Op>, k: nat)
    requires Sound(l) && k in l.escrows
    ensures Sound(DoAll(l, ops)) && k in DoAll(l, ops).escrows
    ensures TermsOf(DoAll(l, ops).escrows[k]) == TermsOf(l.escrows[k])
    decreases |ops|
  {
    if ops != [] {
      DoSound(l, ops[0]);
      StepKeepsTerms(l, ops[0], k);
      TermsStay(Do(l, ops[0]), ops[1..], k);
    }
  }

  lemma StepKeepsTerms(l: Ledger, op: Op, k: nat)
    requires Sound(l) && k in l.escrows
    ensures k in Do(l, op).escrows && TermsOf(Do(l, op).escrows[k]) == TermsOf(l.escrows[k])
  {
    assert l.nextID + 1 !in l.escrows;
  }

  /** The clock after a run: the last time it was set to. */
  function ClockAfter(clock: nat, ops: seq<Op>): nat
  {
    if ops == [] then clock
    else if ops[|ops| - 1].SetClock? then ops[|ops| - 1].now
    else ClockAfter(clock, ops[..|ops| - 1])
  }

  lemma {:induction false} DoAllSnoc(l: Ledger, ops: seq<Op>, op: Op)
    ensures DoAll(l, ops + [op]) == Do(DoAll(l, ops), op)
    decreases |ops|
  {
    SumOfSeqs(ops, [op]);
    if ops == [] {
      assert [op][1..] == [];
      assert DoAll(Do(l, op), []) == Do(l, op);
    } else {
      DoAllSnoc(Do(l, ops[0]), ops[1..], op);
    }
  }

  lemma {:induction false} ClockIsLastSet(l: Ledger, ops: seq<Op>)
    ensures DoAll(l, ops).clock == ClockAfter(l.clock, ops)
    decreases |ops|
  {
    if ops != [] {
      var init, op := ops[..|ops| - 1], ops[|ops| - 1];
      assert ops == init + [op];
      DoAllSnoc(l, init, op);
      ClockIsLastSet(l, init);
    }
  }

  /** The account that a creation opens. */
  function Opened(l: Ledger): EscrowRef
  {
    EscrowRef("memory", l.nextID + 1)
  }

  /** Whatever operations follow a creation, the account keeps its parties, currency, agreement hash
      and timeout, and a refund from it succeeds exactly when the clock was last set to the timeout
      or past it. */
  lemma RefundIff(l: Ledger, b: string, s: string, c: string, h: Hash, timeout: nat, ops: seq<Op>)
    requires Sound(l)
    ensures var after := DoAll(Do(l, Create(b, s, c, h, timeout)), ops);
            && Lookup(after, Opened(l)).Some?
            && TermsOf(Lookup(after, Opened(l)).value) == Terms(b, s, c, h, timeout)
            && (Attempt(after, Refund(Opened(l))).Ok? <==> ClockAfter(l.clock, ops) >= timeout)
            && (ClockAfter(l.clock, ops) < timeout ==> Attempt(after, Refund(Opened(l))) == Err(TimeoutNotElapsed))
  {
    var first := Do(l, Create(b, s, c, h, timeout));
    DoSound(l, Create(b, s, c, h, timeout));
    TermsStay(first, ops, l.nextID + 1);
    ClockIsLastSet(first, ops);
  }

  /** The clock is not set to this time or later. */
  predicate Early(ops: seq<Op>, time: nat)
  {
    ops == [] || ((ops[0].SetClock? ==> ops[0].now < time) && Early(ops[1..], time))
  }

  lemma {:induction false} NothingBack(l: Ledger, ops: seq<Op>, k: nat)
    requires Sound(l) && k in l.escrows && l.clock < l.escrows[k].timeout && Early(ops, l.escrows[k].timeout)
    ensures GivenBack(l, ops, k) == 0
    decreases |ops|
  {
    if ops != [] {
      DoSound(l, ops[0]);
      StepKeepsTerms(l, ops[0], k);
      NothingBack(Do(l, ops[0]), ops[1..], k);
    }
  }

  /** So until then a deposit leaves its account only by approved releases. */
  lemma NoRefundBeforeTimeout(l: Ledger, b: string, s: string, c: string, h: Hash, timeout: nat, ops: seq<Op>)
    requires Sound(l) && l.clock < timeout && Early(ops, timeout)
    ensures var first, k := Do(l, Create(b, s, c, h, timeout)), l.nextID + 1;
            && GivenBack(first, ops, k) == 0
            && Balance(DoAll(first, ops), k) == PutIn(first, ops, k) - PaidOut(first, ops, k)
  {
    var first := Do(l, Create(b, s, c, h, timeout));
    DoSound(l, Create(b, s, c, h, timeout));
    NothingBack(first, ops, l.nextID + 1);
    Conservation(first, ops, l.nextID + 1);
  }

  // ----- the phase of an account

  /** How many deposits, approvals and refunds the account has seen. */
  ghost function Accepted(l: Ledger, ops: seq<Op>, k: nat): (int, int, int)
    decreases |ops|
  {
    if ops == [] then (0, 0, 0)
    else
      var (d, a, r) := Accepted(Do(l, ops[0]), ops[1..], k);
      if Attempt(l, ops[0]).Err? then (d, a, r)
      else
        match ops[0]
        case Deposit(ref, _) => (if ref.locator == k then d + 1 else d, a, r)
        case Approve(ref, _) => (d, if ref.locator == k then a + 1 else a, r)
        case Refund(ref) => (d, a, if ref.locator == k then r + 1 else r)
        case _ => (d, a, r)
  }

  lemma {:induction false} PhaseMoves(l: Ledger, ops: seq<Op>, k: nat)
    requires Sound(l) && k in l.escrows
    ensures var (d, a, r) := Accepted(l, ops, k);
            var before, after := l.escrows[k].phase, DoAll(l, ops).escrows;
            && d >= 0 && a >= 0 && r >= 0 && k in after
            && (a == 0 && r == 0 ==> after[k].phase == if before == Created && d > 0 then Funded else before)
            && (a > 0 && r == 0 ==> after[k].phase == Released)
            && (a == 0 && r > 0 ==> after[k].phase == Refunded)
            && (a > 0 && r > 0 ==> after[k].phase == Released || after[k].phase == Refunded)
    decreases |ops|
  {
    if ops != [] {
      DoSound(l, ops[0]);
      StepKeepsTerms(l, ops[0], k);
      PhaseStep(l, ops[0], k);
      PhaseMoves(Do(l, ops[0]), ops[1..], k);
    }
  }

  lemma PhaseStep(l: Ledger, op: Op, k: nat)
    requires Sound(l) && k in l.escrows && k in Do(l, op).escrows
    ensures var before, after := l.escrows[k].phase, Do(l, op).escrows[k].phase;
            if op.Deposit? && op.ref.locator == k && Attempt(l, op).Ok? then after == (if before == Created then Funded else before)
            else if op.Approve? && op.ref.locator == k && Attempt(l, op).Ok? then after == Released
            else if op.Refund? && op.ref.locator == k && Attempt(l, op).Ok? then after == Refunded
            else after == before
  {
    assert l.nextID + 1 !in l.escrows;
  }

  /** An account is CREATED until something happens to it, FUNDED when only deposits have, RELEASED
      after approvals and REFUNDED after refunds, whatever else is done. */
  lemma PhaseMeans(l: Ledger, b: string, s: string, c: string, h: Hash, timeout: nat, ops: seq<Op>)
    requires Sound(l)
    ensures var first, k := Do(l, Create(b, s, c, h, timeout)), l.nextID + 1;
            var (d, a, r) := Accepted(first, ops, k);
            && k in DoAll(first, ops).escrows
            && var phase := DoAll(first, ops).escrows[k].phase;
            && (phase == Created <==> d == a == r == 0)
            && (phase == Funded <==> d > 0 && a == r == 0)
            && (phase == Released ==> a > 0) && (phase == Refunded ==> r > 0)
  {
    DoSound(l, Create(b, s, c, h, timeout));
    PhaseMoves(Do(l, Create(b, s, c, h, timeout)), ops, l.nextID + 1);
  }

  // ----- amounts

  /** The decimal digits of a number. */
  function Decimal(n: nat): (s: string)
    ensures s != []
  {
    var last := [('0' as int + n % 10) as char];
    if n < 10 then last else Decimal(n / 10) + last
  }

  /** Amounts are read in base ten: what was printed is read back, "10" is ten, and a sign, a letter or
      nothing at all is told apart. */
  lemma {:induction false} DecimalIsRead(n: nat)
    ensures Digits(Decimal(n)) == Some(n) && forall i | 0 <= i < |Decimal(n)| :: IsDigit(Decimal(n)[i])
  {
    if n >= 10 {
      DecimalIsRead(n / 10);
      var s := Decimal(n / 10);
      assert Decimal(n)[..|Decimal(n)| - 1] == s;
    }
  }

  lemma {:induction false} ReadableIff(s: string)
    ensures Digits(s).Some? <==> s != [] && forall i | 0 <= i < |s| :: IsDigit(s[i])
  {
    if |s| > 1 {
      ReadableIff(s[..|s| - 1]);
    }
  }

  lemma AmountMeaning(n: nat)
    ensures ParseAmount(Decimal(n)) == Some(n)
    ensures ParseAmount("+" + Decimal(n)) == Some(n)
    ensures ParseAmount("-" + Decimal(n)).Some? && ParseAmount("-" + Decimal(n)).value + n == 0
    ensures ParseAmount("10") == Some(10) && ParseAmount("") == None && ParseAmount("-") == None && ParseAmount("1x") == None
  {
    DecimalIsRead(n);
    assert IsDigit(Decimal(n)[0]);
    assert ("+" + Decimal(n))[1..] == Decimal(n) && ("-" + Decimal(n))[1..] == Decimal(n);
    assert "10"[..1] == "1" && "-"[1..] == "";
    assert Digits("1") == Some(1);
  }
}
