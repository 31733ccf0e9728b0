/** Signing and verifying transactions in the Go client (client-sdk/go/types/transaction.go and
    crypto.go). Keys are values, signatures and the CBOR encoding of a transaction are ideal. */
module Multisig {
  import opened Basics

  const U64 := 0x1_0000_0000_0000_0000

  type u64 = x: nat | x < U64
  type Key = nat
  type Context = nat

  datatype MultisigSigner = MultisigSigner(key: Key, weight: u64)
  datatype MultisigConfig = MultisigConfig(signers: seq<MultisigSigner>, threshold: u64)

  /** Nothing keeps both kinds of authentication, or neither, from being given. */
  datatype AddressSpec = AddressSpec(signature: Option<Key>, multisig: Option<MultisigConfig>)
  datatype SignerInfo = SignerInfo(spec: AddressSpec, nonce: u64)
  datatype Transaction = Transaction(version: nat, call: seq<nat>, infos: seq<SignerInfo>)

  /** A body is the encoding of some transaction, or of none. */
  datatype Body = Encoded(tx: Transaction) | Garbage(bytes: seq<nat>)

  datatype Sig = Sig(key: Key, ctx: Context, body: Body)
  datatype AuthProof = AuthProof(signature: Option<Sig>, multisig: Option<seq<Option<Sig>>>, scheme: string)
  datatype UnverifiedTransaction = UnverifiedTransaction(body: Body, proofs: seq<AuthProof>)

  const NO_PROOF := AuthProof(None, None, "")
  const LATEST_VERSION := 1

  datatype Error =
    | ZeroThreshold | ZeroWeight(signer: nat) | WeightOverflow | ImpossibleThreshold
    | MismatchedLength | InsufficientWeight | MalformedPair
    | ModuleScheme(scheme: string) | MalformedBody | UnsupportedVersion | NoSigners | InconsistentProofs
    | BadSignature(signature: nat)
    | MalformedSpec(info: nat) | SigningFailed(info: nat) | SignerNotFound

  datatype Result<+T> = Ok(value: T) | Err(error: Error)

  function Weight(signers: seq<MultisigSigner>): nat {
    if signers == [] then 0 else Weight(signers[..|signers| - 1]) + signers[|signers| - 1].weight
  }

  /** The sum, over the naturals, of the weights whose slot holds a signature. */
  function SignedWeight(signers: seq<MultisigSigner>, set_: seq<Option<Sig>>): nat
    requires |signers| == |set_|
  {
    if signers == [] then 0
    else
      var n := |signers| - 1;
      SignedWeight(signers[..n], set_[..n]) + if set_[n].Some? then signers[n].weight else 0
  }

  lemma {:induction false} WeightGrows(signers: seq<MultisigSigner>, n: nat)
    requires n <= |signers|
    ensures Weight(signers[..n]) <= Weight(signers)
    decreases |signers| - n
  {
    if n < |signers| {
      assert signers[..n + 1][..n] == signers[..n];
      WeightGrows(signers, n + 1);
    } else {
      assert signers[..n] == signers;
    }
  }

  lemma {:induction false} SignedIsLess(signers: seq<MultisigSigner>, set_: seq<Option<Sig>>)
    requires |signers| == |set_|
    ensures SignedWeight(signers, set_) <= Weight(signers)
  {
    if signers != [] {
      SignedIsLess(signers[..|signers| - 1], set_[..|set_| - 1]);
    }
  }

  /** A configuration some set of signers can satisfy, and whose weights add up in 64 bits. */
  predicate ValidConfig(c: MultisigConfig) {
    && 0 < c.threshold <= Weight(c.signers) < U64
    && forall i | 0 <= i < |c.signers| :: c.signers[i].weight > 0
  }

  /** Validate a configuration. The total is a 64-bit sum with a carry check. */
  method ValidateBasic(c: MultisigConfig) returns (e: Option<Error>)
    ensures e.None? <==> ValidConfig(c)
    ensures e.Some? ==>
              e.value.ZeroThreshold? || e.value.ZeroWeight? || e.value.WeightOverflow? || e.value.ImpossibleThreshold?
    ensures e == Some(ZeroThreshold) <==> c.threshold == 0
    ensures e.Some? && e.value.ZeroWeight? ==>
              var i := e.value.signer;
              i < |c.signers| && c.signers[i].weight == 0 && forall j | 0 <= j < i :: c.signers[j].weight > 0
    ensures e == Some(WeightOverflow) ==> Weight(c.signers) >= U64
    ensures e == Some(ImpossibleThreshold) ==> Weight(c.signers) < c.threshold
  {
    if c.threshold == 0 {
      return Some(ZeroThreshold);
    }
    var total: u64 := 0;
    for i := 0 to |c.signers|
      invariant total == Weight(c.signers[..i])
      invariant forall j | 0 <= j < i :: c.signers[j].weight > 0
    {
      assert c.signers[..i + 1][..i] == c.signers[..i];
      WeightGrows(c.signers, i + 1);
      if c.signers[i].weight == 0 {
        return Some(ZeroWeight(i));
      }
      if total + c.signers[i].weight >= U64 {
        return Some(WeightOverflow);
      }
      total := total + c.signers[i].weight;
    }
    assert c.signers[..|c.signers|] == c.signers;
    return if total < c.threshold then Some(ImpossibleThreshold) else None;
  }

  /** The keys and signatures of the filled slots, in order. */
  function Present(signers: seq<MultisigSigner>, set_: seq<Option<Sig>>): seq<(Key, Sig)>
    requires |signers| == |set_|
  {
    if signers == [] then []
    else
      var n := |signers| - 1;
      Present(signers[..n], set_[..n]) + if set_[n].Some? then [(signers[n].key, set_[n].value)] else []
  }

  /** Whether a signature set has enough natural weight for a valid configuration. */
  predicate Enough(c: MultisigConfig, set_: seq<Option<Sig>>) {
    ValidConfig(c) && |set_| == |c.signers| && SignedWeight(c.signers, set_) >= c.threshold
  }

  /** An error about the transaction as a whole, not about one of its proofs. */
  predicate WholeError(e: Error) {
    e.ModuleScheme? || e.MalformedBody? || e.UnsupportedVersion? || e.NoSigners? || e.InconsistentProofs?
  }

  /** Collect the signatures of a multisig proof. The total is an unchecked 64-bit sum, yet what it is
      compared with the threshold for is decided by the natural sum. */
  method BatchMultisig(c: MultisigConfig, set_: seq<Option<Sig>>) returns (r: Result<seq<(Key, Sig)>>)
    ensures r.Ok? <==> Enough(c, set_)
    ensures r.Ok? ==> r.value == Present(c.signers, set_)
    ensures r.Err? ==> !r.error.BadSignature? && !WholeError(r.error) && !r.error.MalformedPair?
    ensures r == Err(MismatchedLength) <==> ValidConfig(c) && |set_| != |c.signers|
    ensures r == Err(InsufficientWeight) <==>
            ValidConfig(c) && |set_| == |c.signers| && SignedWeight(c.signers, set_) < c.threshold
  {
    var e := ValidateBasic(c);
    if e.Some? {
      return Err(e.value);
    }
    if |set_| != |c.signers| {
      return Err(MismatchedLength);
    }
    var total: u64 := 0;
    var batch: seq<(Key, Sig)> := [];
    for i := 0 to |c.signers|
      invariant total == SignedWeight(c.signers[..i], set_[..i])
      invariant batch == Present(c.signers[..i], set_[..i])
    {
      assert c.signers[..i + 1][..i] == c.signers[..i] && set_[..i + 1][..i] == set_[..i];
      SignedIsLess(c.signers[..i + 1], set_[..i + 1]);
      WeightGrows(c.signers, i + 1);
      if set_[i].Some? {
        total := (total + c.signers[i].weight) % U64;
        batch := batch + [(c.signers[i].key, set_[i].value)];
      }
    }
    assert c.signers[..|c.signers|] == c.signers && set_[..|set_|] == set_;
    return if total < c.threshold then Err(InsufficientWeight) else Ok(batch);
  }

  /** Whether a proof has the shape and weight its address specification asks for. */
  predicate Fitting(spec: AddressSpec, p: AuthProof) {
    if spec.signature.Some? && p.signature.Some? then true
    else spec.multisig.Some? && p.multisig.Some? && Enough(spec.multisig.value, p.multisig.value)
  }

  function Claimed(spec: AddressSpec, p: AuthProof): seq<(Key, Sig)>
    requires Fitting(spec, p)
  {
    if spec.signature.Some? && p.signature.Some? then [(spec.signature.value, p.signature.value)]
    else Present(spec.multisig.value.signers, p.multisig.value)
  }

  method Batch(spec: AddressSpec, p: AuthProof) returns (r: Result<seq<(Key, Sig)>>)
    ensures r.Ok? <==> Fitting(spec, p)
    ensures r.Ok? ==> r.value == Claimed(spec, p)
    ensures r == Err(MalformedPair) <==>
            !(spec.signature.Some? && p.signature.Some?) && !(spec.multisig.Some? && p.multisig.Some?)
    ensures r.Err? ==> !r.error.BadSignature? && !WholeError(r.error)
  {
    if spec.signature.Some? && p.signature.Some? {
      r := Ok([(spec.signature.value, p.signature.value)]);
    } else if spec.multisig.Some? && p.multisig.Some? {
      r := BatchMultisig(spec.multisig.value, p.multisig.value);
    } else {
      r := Err(MalformedPair);
    }
  }

  predicate Genuine(c: (Key, Sig), ctx: Context, body: Body) {
    c.1 == Sig(c.0, ctx, body)
  }

  predicate AllGenuine(cs: seq<(Key, Sig)>, ctx: Context, body: Body) {
    forall i | 0 <= i < |cs| :: Genuine(cs[i], ctx, body)
  }

  /** A proof that fits its specification and holds only genuine signatures. */
  predicate Satisfies(spec: AddressSpec, p: AuthProof, ctx: Context, body: Body) {
    Fitting(spec, p) && AllGenuine(Claimed(spec, p), ctx, body)
  }

  /** What it takes for a transaction to verify. */
  predicate Verifies(ut: UnverifiedTransaction, ctx: Context) {
    && !(|ut.proofs| == 1 && ut.proofs[0].scheme != "")
    && ut.body.Encoded?
    && ut.body.tx.version == LATEST_VERSION
    && |ut.proofs| == |ut.body.tx.infos| > 0
    && forall i | 0 <= i < |ut.proofs| :: Satisfies(ut.body.tx.infos[i].spec, ut.proofs[i], ctx, ut.body)
  }

  predicate OurScheme(ut: UnverifiedTransaction) {
    |ut.proofs| == 1 ==> ut.proofs[0].scheme == ""
  }

  predicate OurVersion(ut: UnverifiedTransaction) {
    OurScheme(ut) && ut.body.Encoded? && ut.body.tx.version == LATEST_VERSION
  }

  /** Verify all proofs, the signatures in one batch at the end. */
  method Verify(ut: UnverifiedTransaction, ctx: Context) returns (r: Result<Transaction>)
    ensures r.Ok? <==> Verifies(ut, ctx)
    ensures r.Ok? ==> ut.body == Encoded(r.value)
    ensures forall s :: r == Err(ModuleScheme(s)) <==> |ut.proofs| == 1 && ut.proofs[0].scheme == s != ""
    ensures r == Err(MalformedBody) <==> OurScheme(ut) && !ut.body.Encoded?
    ensures r == Err(UnsupportedVersion) <==> OurScheme(ut) && ut.body.Encoded? && ut.body.tx.version != LATEST_VERSION
    ensures r == Err(NoSigners) <==> OurVersion(ut) && ut.body.tx.infos == []
    ensures r == Err(InconsistentProofs) <==> OurVersion(ut) && 0 < |ut.body.tx.infos| != |ut.proofs|
    ensures r.Err? && r.error.BadSignature? <==>
            && OurVersion(ut) && 0 < |ut.body.tx.infos| == |ut.proofs|
            && (forall i | 0 <= i < |ut.proofs| :: Fitting(ut.body.tx.infos[i].spec, ut.proofs[i]))
            && !Verifies(ut, ctx)
  {
    if |ut.proofs| == 1 && ut.proofs[0].scheme != "" {
      return Err(ModuleScheme(ut.proofs[0].scheme));
    }
    if !ut.body.Encoded? {
      return Err(MalformedBody);
    }
    var tx := ut.body.tx;
    if tx.version != LATEST_VERSION {
      return Err(UnsupportedVersion);
    }
    if |tx.infos| == 0 {
      return Err(NoSigners);
    }
    if |ut.proofs| != |tx.infos| {
      return Err(InconsistentProofs);
    }
    var batch: seq<(Key, Sig)> := [];
    for i := 0 to |ut.proofs|
      invariant forall j | 0 <= j < i :: Fitting(tx.infos[j].spec, ut.proofs[j])
      invariant AllGenuine(batch, ctx, ut.body) <==>
                forall j | 0 <= j < i :: Satisfies(tx.infos[j].spec, ut.proofs[j], ctx, ut.body)
    {
      var b := Batch(tx.infos[i].spec, ut.proofs[i]);
      if b.Err? {
        assert !Satisfies(tx.infos[i].spec, ut.proofs[i], ctx, ut.body);
        return Err(b.error);
      }
      GenuineTogether(batch, b.value, ctx, ut.body);
      batch := batch + b.value;
    }
    for i := 0 to |batch|
      invariant forall j | 0 <= j < i :: Genuine(batch[j], ctx, ut.body)
    {
      if batch[i].1 != Sig(batch[i].0, ctx, ut.body) {
        assert !Genuine(batch[i], ctx, ut.body);
        return Err(BadSignature(i));
      }
    }
    return Ok(tx);
  }

  lemma GenuineTogether(a: seq<(Key, Sig)>, b: seq<(Key, Sig)>, ctx: Context, body: Body)
    ensures AllGenuine(a + b, ctx, body) <==> AllGenuine(a, ctx, body) && AllGenuine(b, ctx, body)
  {
    assert forall i | 0 <= i < |a| :: a[i] == (a + b)[i];
    assert forall i | 0 <= i < |b| :: b[i] == (a + b)[|a| + i];
  }

  predicate Malformed(spec: AddressSpec) {
    spec.signature.None? && spec.multisig.None?
  }

  /** The number of signer infos that a signer gets to see: it stops at the first malformed one. */
  function Reach(infos: seq<SignerInfo>): (n: nat)
    ensures n <= |infos|
  {
    if infos == [] then 0
    else
      var n := Reach(infos[..|infos| - 1]);
      if n < |infos| - 1 || Malformed(infos[n].spec) then n else n + 1
  }

  /** A signer that has got as far as an info stops there exactly if it is malformed. */
  lemma {:induction false} ReachAt(infos: seq<SignerInfo>, i: nat)
    requires i < |infos|
    ensures i < Reach(infos) ==> !Malformed(infos[i].spec)
    ensures i == Reach(infos) ==> Malformed(infos[i].spec)
  {
    var last := |infos| - 1;
    if i < last {
      ReachAt(infos[..last], i);
    }
  }

  /** How many slots of a multisig belong to a key. */
  function Slots(signers: seq<MultisigSigner>, key: Key): nat {
    if signers == [] then 0
    else Slots(signers[..|signers| - 1], key) + if signers[|signers| - 1].key == key then 1 else 0
  }

  /** How many signatures a specification asks of a key; a single signature has precedence over a
      multisig. */
  function Asks(spec: AddressSpec, key: Key): nat {
    match spec.signature
    case Some(k) => if k == key then 1 else 0
    case None => if spec.multisig.Some? then Slots(spec.multisig.value.signers, key) else 0
  }

  /** How many signatures the infos ask of a key. */
  function Asked(infos: seq<SignerInfo>, key: Key): nat {
    if infos == [] then 0 else Asked(infos[..|infos| - 1], key) + Asks(infos[|infos| - 1].spec, key)
  }

  function Blank(spec: AddressSpec): AuthProof {
    match spec.multisig
    case None => NO_PROOF
    case Some(c) => NO_PROOF.(multisig := Some(seq(|c.signers|, _ => None)))
  }

  predicate Shaped(spec: AddressSpec, p: AuthProof) {
    spec.multisig.Some? ==> p.multisig.Some? && |p.multisig.value| == |spec.multisig.value.signers|
  }

  /** An attempt to sign. The signer is asked once per place and may fail at any of them: `signs` is
      how often it signs before it fails, if it does. */
  datatype Attempt = Attempt(key: Key, ctx: Context, signs: Option<nat>)

  /** Whether the signer gets to sign at a place of its key, counted from the first one. */
  predicate Signs(a: Attempt, place: nat) {
    a.signs.None? || place < a.signs.value
  }

  function SigOf(a: Attempt, body: Body): Sig {
    Sig(a.key, a.ctx, body)
  }

  /** Put signatures into those of the first `n` slots that the attempt gets to, of which `first`
      places come before this multisig. */
  function FilledSlots(signers: seq<MultisigSigner>, slots: seq<Option<Sig>>, a: Attempt, body: Body, first: nat,
                       n: nat):
      seq<Option<Sig>>
    requires |signers| == |slots|
  {
    seq(|slots|, j requires 0 <= j < |slots| =>
      if j < n && signers[j].key == a.key && Signs(a, first + Slots(signers[..j], a.key))
      then Some(SigOf(a, body)) else slots[j])
  }

  /** A proof with a signature put wherever the attempt gets to. */
  function Filled(spec: AddressSpec, p: AuthProof, a: Attempt, body: Body, first: nat): AuthProof
    requires Shaped(spec, p)
  {
    if spec.signature.Some? then
      if spec.signature.value == a.key && Signs(a, first) then p.(signature := Some(SigOf(a, body))) else p
    else if spec.multisig.Some? then
      var slots := p.multisig.value;
      p.(multisig := Some(FilledSlots(spec.multisig.value.signers, slots, a, body, first, |slots|)))
    else p
  }

  ghost predicate AllShaped(infos: seq<SignerInfo>, proofs: seq<AuthProof>) {
    |proofs| == |infos| && forall i | 0 <= i < |infos| :: Shaped(infos[i].spec, proofs[i])
  }

  /** Fill the first `n` proofs. */
  ghost function FilledTo(tx: Transaction, proofs: seq<AuthProof>, a: Attempt, n: nat): (r: seq<AuthProof>)
    requires AllShaped(tx.infos, proofs)
    ensures AllShaped(tx.infos, r)
  {
    seq(|proofs|, i requires 0 <= i < |proofs| =>
      if i < n then Filled(tx.infos[i].spec, proofs[i], a, Encoded(tx), Asked(tx.infos[..i], a.key)) else proofs[i])
  }

  ghost function Allocated(infos: seq<SignerInfo>, proofs: seq<AuthProof>): (r: seq<AuthProof>)
    requires proofs == [] || AllShaped(infos, proofs)
    ensures AllShaped(infos, r)
  {
    if proofs == [] then seq(|infos|, i requires 0 <= i < |infos| => Blank(infos[i].spec)) else proofs
  }

  /** The proofs after an attempt. */
  ghost function Signed(tx: Transaction, proofs: seq<AuthProof>, a: Attempt): (r: seq<AuthProof>)
    requires proofs == [] || AllShaped(tx.infos, proofs)
    ensures r == [] || AllShaped(tx.infos, r)
  {
    var n := Reach(tx.infos);
    if Asked(tx.infos[..n], a.key) == 0 then proofs else FilledTo(tx, Allocated(tx.infos, proofs), a, n)
  }

  lemma {:induction false} NoSlots(signers: seq<MultisigSigner>, key: Key)
    ensures Slots(signers, key) == 0 <==> forall j | 0 <= j < |signers| :: signers[j].key != key
  {
    if signers != [] {
      NoSlots(signers[..|signers| - 1], key);
    }
  }

  lemma SlotsStep(signers: seq<MultisigSigner>, key: Key, j: nat)
    requires j < |signers|
    ensures Slots(signers[..j + 1], key) == Slots(signers[..j], key) + if signers[j].key == key then 1 else 0
  {
    assert signers[..j + 1][..j] == signers[..j];
  }

  lemma AskedStep(infos: seq<SignerInfo>, key: Key, i: nat)
    requires i < |infos|
    ensures Asked(infos[..i + 1], key) == Asked(infos[..i], key) + Asks(infos[i].spec, key)
  {
    assert infos[..i + 1][..i] == infos[..i];
  }

  /** One slot more: filled if it belongs to the key and the signer signs there. */
  lemma FillSlot(signers: seq<MultisigSigner>, slots: seq<Option<Sig>>, a: Attempt, body: Body, first: nat, j: nat)
    requires |slots| == |signers| && j < |signers|
    ensures var before := FilledSlots(signers, slots, a, body, first, j);
            var after := FilledSlots(signers, slots, a, body, first, j + 1);
            after == if signers[j].key == a.key && Signs(a, first + Slots(signers[..j], a.key))
                     then before[j := Some(SigOf(a, body))] else before
  {
  }

  lemma NoSlotFilled(signers: seq<MultisigSigner>, slots: seq<Option<Sig>>, a: Attempt, body: Body, first: nat, j: nat)
    requires |slots| == |signers| && j <= |signers| && Slots(signers[..j], a.key) == 0
    ensures FilledSlots(signers, slots, a, body, first, j) == slots
  {
    NoSlots(signers[..j], a.key);
    assert forall k | 0 <= k < j :: signers[..j][k] == signers[k];
  }

  lemma {:induction false} SlotsGrow(signers: seq<MultisigSigner>, key: Key, j: nat)
    requires j <= |signers|
    ensures Slots(signers[..j], key) <= Slots(signers, key)
    decreases |signers| - j
  {
    if j < |signers| {
      assert signers[..j + 1][..j] == signers[..j];
      SlotsGrow(signers, key, j + 1);
    } else {
      assert signers[..j] == signers;
    }
  }

  lemma {:induction false} AskedGrows(infos: seq<SignerInfo>, key: Key, i: nat)
    requires i <= |infos|
    ensures Asked(infos[..i], key) <= Asked(infos, key)
    decreases |infos| - i
  {
    if i < |infos| {
      assert infos[..i + 1][..i] == infos[..i];
      AskedGrows(infos, key, i + 1);
    } else {
      assert infos[..i] == infos;
    }
  }

  /** A proof stays as it is when it asks nothing of the key, or the signer fails before it. */
  lemma FillingNothing(spec: AddressSpec, p: AuthProof, a: Attempt, body: Body, first: nat)
    requires Shaped(spec, p) && (Asks(spec, a.key) == 0 || !Signs(a, first))
    ensures Filled(spec, p, a, body, first) == p
  {
    if spec.signature.None? && spec.multisig.Some? {
      var c := spec.multisig.value;
      NoSlots(c.signers, a.key);
      assert FilledSlots(c.signers, p.multisig.value, a, body, first, |c.signers|) == p.multisig.value;
    }
  }

  /** The proofs after one signer info has been dealt with. */
  ghost function After(tx: Transaction, proofs: seq<AuthProof>, i: nat, a: Attempt): seq<AuthProof>
    requires i < |tx.infos| && (proofs == [] || AllShaped(tx.infos, proofs))
  {
    var base := Allocated(tx.infos, proofs);
    if Asks(tx.infos[i].spec, a.key) == 0 then proofs
    else base[i := Filled(tx.infos[i].spec, base[i], a, Encoded(tx), Asked(tx.infos[..i], a.key))]
  }

  /** The proofs after the first `i` signer infos have been dealt with. */
  ghost function Progress(tx: Transaction, start: seq<AuthProof>, a: Attempt, i: nat): (r: seq<AuthProof>)
    requires i <= |tx.infos| && (start == [] || AllShaped(tx.infos, start))
    ensures r == [] || AllShaped(tx.infos, r)
  {
    if Asked(tx.infos[..i], a.key) > 0 then FilledTo(tx, Allocated(tx.infos, start), a, i) else start
  }

  /** The proofs with the multisig slots of one of them replaced. */
  ghost function WithSlots(tx: Transaction, proofs: seq<AuthProof>, i: nat,
                           slots: seq<Option<Sig>>): (r: seq<AuthProof>)
    requires i < |tx.infos| && AllShaped(tx.infos, proofs) && tx.infos[i].spec.multisig.Some?
    requires |slots| == |tx.infos[i].spec.multisig.value.signers|
    ensures AllShaped(tx.infos, r) && r != []
  {
    proofs[i := proofs[i].(multisig := Some(slots))]
  }

  /** The proofs after the first `j` slots of a multisig have been dealt with. */
  ghost function SlotProgress(tx: Transaction, start: seq<AuthProof>, i: nat, a: Attempt, j: nat): (r: seq<AuthProof>)
    requires i < |tx.infos| && (start == [] || AllShaped(tx.infos, start)) && tx.infos[i].spec.multisig.Some?
    requires j <= |tx.infos[i].spec.multisig.value.signers|
    ensures r == [] || AllShaped(tx.infos, r)
  {
    var base, signers := Allocated(tx.infos, start), tx.infos[i].spec.multisig.value.signers;
    if Slots(signers[..j], a.key) == 0 then start
    else
      var first := Asked(tx.infos[..i], a.key);
      WithSlots(tx, base, i, FilledSlots(signers, base[i].multisig.value, a, Encoded(tx), first, j))
  }

  /** Allocating the proofs changes nothing but the proofs that are not there yet. */
  lemma ProgressAllocated(tx: Transaction, start: seq<AuthProof>, i: nat, a: Attempt, j: nat)
    requires i < |tx.infos| && (start == [] || AllShaped(tx.infos, start)) && tx.infos[i].spec.multisig.Some?
    requires j <= |tx.infos[i].spec.multisig.value.signers|
    ensures var base, signers := Allocated(tx.infos, start), tx.infos[i].spec.multisig.value.signers;
            var first := Asked(tx.infos[..i], a.key);
            Allocated(tx.infos, SlotProgress(tx, start, i, a, j)) ==
            WithSlots(tx, base, i, FilledSlots(signers, base[i].multisig.value, a, Encoded(tx), first, j))
  {
    hide FilledSlots, Slots, Asked;
    var base, signers := Allocated(tx.infos, start), tx.infos[i].spec.multisig.value.signers;
    if Slots(signers[..j], a.key) == 0 {
      NoSlotFilled(signers, base[i].multisig.value, a, Encoded(tx), Asked(tx.infos[..i], a.key), j);
    }
  }

  lemma SlotSkipped(tx: Transaction, start: seq<AuthProof>, i: nat, a: Attempt, j: nat)
    requires i < |tx.infos| && (start == [] || AllShaped(tx.infos, start)) && tx.infos[i].spec.multisig.Some?
    requires j < |tx.infos[i].spec.multisig.value.signers| && tx.infos[i].spec.multisig.value.signers[j].key != a.key
    ensures SlotProgress(tx, start, i, a, j + 1) == SlotProgress(tx, start, i, a, j)
  {
    hide FilledSlots, Slots, Asked;
    var base, signers := Allocated(tx.infos, start), tx.infos[i].spec.multisig.value.signers;
    SlotsStep(signers, a.key, j);
    FillSlot(signers, base[i].multisig.value, a, Encoded(tx), Asked(tx.infos[..i], a.key), j);
  }

  /** Signing at a slot of the key, or failing there and at all later ones. */
  lemma SlotReached(tx: Transaction, start: seq<AuthProof>, i: nat, a: Attempt, j: nat)
    requires i < |tx.infos| && (start == [] || AllShaped(tx.infos, start)) && tx.infos[i].spec.multisig.Some?
    requires j < |tx.infos[i].spec.multisig.value.signers| && tx.infos[i].spec.multisig.value.signers[j].key == a.key
    ensures var signers := tx.infos[i].spec.multisig.value.signers;
            var now := Allocated(tx.infos, SlotProgress(tx, start, i, a, j));
            if Signs(a, Asked(tx.infos[..i], a.key) + Slots(signers[..j], a.key))
            then WithSlots(tx, now, i, now[i].multisig.value[j := Some(SigOf(a, Encoded(tx)))]) ==
                 SlotProgress(tx, start, i, a, j + 1)
            else now == SlotProgress(tx, start, i, a, |signers|)
  {
    hide FilledSlots, Slots, Asked, Signs, Allocated;
    var base, signers := Allocated(tx.infos, start), tx.infos[i].spec.multisig.value.signers;
    var slots, first, body := base[i].multisig.value, Asked(tx.infos[..i], a.key), Encoded(tx);
    ProgressAllocated(tx, start, i, a, j);
    SlotsStep(signers, a.key, j);
    FillSlot(signers, slots, a, body, first, j);
    SlotsGrow(signers, a.key, j + 1);
    assert signers[..|signers|] == signers;
    if !Signs(a, first + Slots(signers[..j], a.key)) {
      NoMoreSlots(signers, slots, a, body, first, j);
    }
  }

  /** Filling all slots of a multisig is what is to be done for its signer info. */
  lemma SlotsAfter(tx: Transaction, start: seq<AuthProof>, i: nat, a: Attempt)
    requires i < |tx.infos| && (start == [] || AllShaped(tx.infos, start))
    requires tx.infos[i].spec.signature.None? && tx.infos[i].spec.multisig.Some?
    ensures After(tx, start, i, a) == SlotProgress(tx, start, i, a, |tx.infos[i].spec.multisig.value.signers|)
  {
    var signers := tx.infos[i].spec.multisig.value.signers;
    assert signers[..|signers|] == signers;
  }

  class TransactionSigner {
    const tx: Transaction
    const body: Body
    var proofs: seq<AuthProof>

    ghost predicate Valid()
      reads this
    {
      body == Encoded(tx) && (proofs == [] || AllShaped(tx.infos, proofs))
    }

    constructor PrepareForSigning(t: Transaction)
      ensures Valid() && tx == t && proofs == []
    {
      tx, body, proofs := t, Encoded(t), [];
    }

    method AllocateProofs()
      requires Valid()
      modifies this
      ensures Valid() && proofs == Allocated(tx.infos, old(proofs))
    {
      if |proofs| == 0 {
        var ps: seq<AuthProof> := [];
        for i := 0 to |tx.infos|
          invariant |ps| == i && forall k | 0 <= k < i :: ps[k] == Blank(tx.infos[k].spec)
        {
          ps := ps + [Blank(tx.infos[i].spec)];
        }
        proofs := ps;
        assert proofs == Allocated(tx.infos, old(proofs));
      }
    }

    /** Put a signature into a slot. */
    method PutSlot(i: nat, j: nat, sig: Sig)
      requires Valid() && AllShaped(tx.infos, proofs) && i < |tx.infos| && tx.infos[i].spec.multisig.Some?
      requires j < |tx.infos[i].spec.multisig.value.signers|
      modifies this
      ensures Valid() && proofs == WithSlots(tx, old(proofs), i, old(proofs)[i].multisig.value[j := Some(sig)])
    {
      proofs := proofs[i := proofs[i].(multisig := Some(proofs[i].multisig.value[j := Some(sig)]))];
    }

    /** Sign for one multisig, slot by slot, until the signer fails. */
    method SignSlots(i: nat, a: Attempt, first: nat) returns (signed: nat, ok: bool)
      requires Valid() && i < |tx.infos| && first == Asked(tx.infos[..i], a.key)
      requires tx.infos[i].spec.signature.None? && tx.infos[i].spec.multisig.Some?
      modifies this
      ensures Valid() && proofs == After(tx, old(proofs), i, a)
      ensures ok ==> signed == first + Asks(tx.infos[i].spec, a.key) && (signed > first ==> Signs(a, signed - 1))
      ensures !ok ==> Asks(tx.infos[i].spec, a.key) > 0 && !Signs(a, first + Asks(tx.infos[i].spec, a.key) - 1)
    {
      var signers := tx.infos[i].spec.multisig.value.signers;
      assert Slots(signers[..0], a.key) == 0;
      assert signers[..|signers|] == signers;
      signed, ok := first, true;
      SlotsAfter(tx, proofs, i, a);
      hide Slots, Asked, AllShaped, WithSlots, Allocated, After, SlotProgress;
      for j := 0 to |signers|
        invariant Valid() && signed == first + Slots(signers[..j], a.key) && (signed > first ==> Signs(a, signed - 1))
        invariant proofs == SlotProgress(tx, old(proofs), i, a, j)
      {
        SlotsStep(signers, a.key, j);
        if signers[j].key != a.key {
          SlotSkipped(tx, old(proofs), i, a, j);
          continue;
        }
        SlotReached(tx, old(proofs), i, a, j);
        AllocateProofs();
        if !Signs(a, signed) {
          SlotsGrow(signers, a.key, j + 1);
          return signed, false;
        }
        PutSlot(i, j, SigOf(a, body));
        signed := signed + 1;
      }
    }

    /** Sign for one signer info. */
    method SignInfo(i: nat, a: Attempt, first: nat) returns (signed: nat, ok: bool)
      requires Valid() && i < |tx.infos| && first == Asked(tx.infos[..i], a.key) && !Malformed(tx.infos[i].spec)
      modifies this
      ensures Valid() && proofs == After(tx, old(proofs), i, a)
      ensures ok ==> signed == first + Asks(tx.infos[i].spec, a.key) && (signed > first ==> Signs(a, signed - 1))
      ensures !ok ==> Asks(tx.infos[i].spec, a.key) > 0 && !Signs(a, first + Asks(tx.infos[i].spec, a.key) - 1)
    {
      var spec := tx.infos[i].spec;
      if spec.signature.None? {
        signed, ok := SignSlots(i, a, first);
        return;
      }
      if spec.signature.value != a.key {
        return first, true;
      }
      AllocateProofs();
      if !Signs(a, first) {
        assert proofs[i := proofs[i]] == proofs;
        return first, false;
      }
      proofs := proofs[i := proofs[i].(signature := Some(SigOf(a, body)))];
      return first + 1, true;
    }

    /** Sign wherever the signer is asked to, until it fails. The proofs come into being at the first
        such place. */
    method AppendSign(a: Attempt) returns (e: Option<Error>)
      requires Valid()
      modifies this
      ensures Valid() && proofs == Signed(tx, old(proofs), a)
      ensures e.None? <==>
              var asked := Asked(tx.infos, a.key);
              Reach(tx.infos) == |tx.infos| && asked > 0 && Signs(a, asked - 1)
    {
      hide Asks, Asked, Reach, After, AllShaped, Signed, Progress;
      var signed := 0;
      ghost var n := Reach(tx.infos);
      SignedInReach(tx, proofs, a);
      for i := 0 to |tx.infos|
        invariant Valid() && i <= n && signed == Asked(tx.infos[..i], a.key)
        invariant signed > 0 ==> Signs(a, signed - 1)
        invariant proofs == Progress(tx, old(proofs), a, i)
      {
        ReachAt(tx.infos, i);
        if Malformed(tx.infos[i].spec) {
          return Some(MalformedSpec(i));
        }
        AskedStep(tx.infos, a.key, i);
        FillOneMore(tx, old(proofs), i, a);
        var more, ok := SignInfo(i, a, signed);
        if !ok {
          StopsHere(tx, old(proofs), a, i);
          return Some(SigningFailed(i));
        }
        signed := more;
      }
      assert tx.infos[..|tx.infos|] == tx.infos;
      return if signed > 0 then None else Some(SignerNotFound);
    }
  }

  lemma SignedInReach(tx: Transaction, proofs: seq<AuthProof>, a: Attempt)
    requires proofs == [] || AllShaped(tx.infos, proofs)
    ensures Asked(tx.infos[..0], a.key) == 0 && Progress(tx, proofs, a, 0) == proofs
    ensures Progress(tx, proofs, a, Reach(tx.infos)) == Signed(tx, proofs, a)
  {
  }

  /** An attempt that fails at an info has done all it will do. */
  lemma StopsHere(tx: Transaction, proofs: seq<AuthProof>, a: Attempt, i: nat)
    requires (proofs == [] || AllShaped(tx.infos, proofs)) && i < Reach(tx.infos)
    requires Asked(tx.infos[..i + 1], a.key) > 0 && !Signs(a, Asked(tx.infos[..i + 1], a.key) - 1)
    ensures Progress(tx, proofs, a, i + 1) == Signed(tx, proofs, a)
    ensures Asked(tx.infos, a.key) > 0 && !Signs(a, Asked(tx.infos, a.key) - 1)
  {
    hide Asked, Reach, FilledTo;
    var n := Reach(tx.infos);
    AskedGrows(tx.infos, a.key, i + 1);
    assert tx.infos[..n][..i + 1] == tx.infos[..i + 1];
    AskedGrows(tx.infos[..n], a.key, i + 1);
    NoMoreFilled(tx, Allocated(tx.infos, proofs), a, i + 1, n);
  }

  /** After the place at which the signer fails no slot is filled. */
  lemma NoMoreSlots(signers: seq<MultisigSigner>, slots: seq<Option<Sig>>, a: Attempt, body: Body, first: nat, j: nat)
    requires |slots| == |signers| && j < |signers| && !Signs(a, first + Slots(signers[..j], a.key))
    ensures FilledSlots(signers, slots, a, body, first, j) == FilledSlots(signers, slots, a, body, first, |signers|)
  {
    forall k | j <= k < |signers| ensures !Signs(a, first + Slots(signers[..k], a.key)) {
      assert signers[..k][..j] == signers[..j];
      SlotsGrow(signers[..k], a.key, j);
    }
  }

  /** Nor is any proof. */
  lemma NoMoreFilled(tx: Transaction, base: seq<AuthProof>, a: Attempt, i: nat, n: nat)
    requires AllShaped(tx.infos, base) && i <= n <= |tx.infos|
    requires Asked(tx.infos[..i], a.key) > 0 && !Signs(a, Asked(tx.infos[..i], a.key) - 1)
    ensures FilledTo(tx, base, a, i) == FilledTo(tx, base, a, n)
  {
    hide Filled, Asks;
    forall k | i <= k < n
      ensures Filled(tx.infos[k].spec, base[k], a, Encoded(tx), Asked(tx.infos[..k], a.key)) == base[k]
    {
      assert tx.infos[..k][..i] == tx.infos[..i];
      AskedGrows(tx.infos[..k], a.key, i);
      FillingNothing(tx.infos[k].spec, base[k], a, Encoded(tx), Asked(tx.infos[..k], a.key));
    }
  }

  lemma FillOneMore(tx: Transaction, start: seq<AuthProof>, i: nat, a: Attempt)
    requires i < |tx.infos| && (start == [] || AllShaped(tx.infos, start))
    ensures After(tx, Progress(tx, start, a, i), i, a) == Progress(tx, start, a, i + 1)
  {
    hide Asks, Filled, Asked;
    var base, proofs := Allocated(tx.infos, start), Progress(tx, start, a, i);
    AskedStep(tx.infos, a.key, i);
    if Asked(tx.infos[..i], a.key) == 0 {
      forall k | 0 <= k < i
        ensures Filled(tx.infos[k].spec, base[k], a, Encoded(tx), Asked(tx.infos[..k], a.key)) == base[k]
      {
        NotAsked(tx.infos, a.key, i, k);
        FillingNothing(tx.infos[k].spec, base[k], a, Encoded(tx), Asked(tx.infos[..k], a.key));
      }
      assert base == FilledTo(tx, base, a, i);
    }
    if Asks(tx.infos[i].spec, a.key) == 0 {
      FillingNothing(tx.infos[i].spec, base[i], a, Encoded(tx), Asked(tx.infos[..i], a.key));
      assert FilledTo(tx, base, a, i) == FilledTo(tx, base, a, i + 1);
    } else {
      assert After(tx, proofs, i, a) == FilledTo(tx, base, a, i + 1);
    }
  }

  lemma NotAsked(infos: seq<SignerInfo>, key: Key, n: nat, k: nat)
    requires k < n <= |infos| && Asked(infos[..n], key) == 0
    ensures Asks(infos[k].spec, key) == 0
  {
    assert infos[..n][..k + 1] == infos[..k + 1] && infos[..k + 1][..k] == infos[..k];
    AskedGrows(infos[..n], key, k + 1);
  }

  /** The proofs after a sequence of attempts. */
  ghost function Run(tx: Transaction, attempts: seq<Attempt>): (r: seq<AuthProof>)
    ensures r == [] || AllShaped(tx.infos, r)
  {
    if attempts == [] then [] else Signed(tx, Run(tx, attempts[..|attempts| - 1]), attempts[|attempts| - 1])
  }

  /** The last signature a key has produced at one of its places. */
  function Last(attempts: seq<Attempt>, key: Key, place: nat, body: Body): Option<Sig> {
    if attempts == [] then None
    else
      var a := attempts[|attempts| - 1];
      if a.key == key && Signs(a, place) then Some(SigOf(a, body))
      else Last(attempts[..|attempts| - 1], key, place, body)
  }

  /** The place of a slot among all places of its key, `before` of which come in earlier infos. */
  function PlaceOf(infos: seq<SignerInfo>, signers: seq<MultisigSigner>, j: nat): nat
    requires j < |signers|
  {
    Asked(infos, signers[j].key) + Slots(signers[..j], signers[j].key)
  }

  /** The proof that the attempts amount to, for the specification that follows `earlier` infos. */
  function Collected(earlier: seq<SignerInfo>, spec: AddressSpec, attempts: seq<Attempt>, body: Body): AuthProof {
    AuthProof(
      match spec.signature { case Some(k) => Last(attempts, k, Asked(earlier, k), body) case None => None },
      match spec.multisig {
        case None => None
        case Some(c) => Some(seq(|c.signers|, j requires 0 <= j < |c.signers| =>
          if spec.signature.Some? then None
          else Last(attempts, c.signers[j].key, PlaceOf(earlier, c.signers, j), body)))
      },
      "")
  }

  lemma OneMoreAttempt(earlier: seq<SignerInfo>, spec: AddressSpec, attempts: seq<Attempt>, a: Attempt, body: Body)
    ensures Collected(earlier, spec, attempts + [a], body) ==
            Filled(spec, Collected(earlier, spec, attempts, body), a, body, Asked(earlier, a.key))
  {
    assert (attempts + [a])[..|attempts|] == attempts;
    if spec.multisig.Some? {
      var slots := Collected(earlier, spec, attempts + [a], body).multisig.value;
      if spec.signature.Some? {
        assert slots == Collected(earlier, spec, attempts, body).multisig.value;
      } else {
        var before := Collected(earlier, spec, attempts, body);
        assert slots == Filled(spec, before, a, body, Asked(earlier, a.key)).multisig.value;
      }
    }
  }

  /** Whatever the order of the attempts and wherever they fail, every proof in reach holds the last
      signature produced at each of its places. */
  lemma {:induction false} RunCollects(tx: Transaction, attempts: seq<Attempt>, i: nat)
    requires i < Reach(tx.infos)
    ensures Allocated(tx.infos, Run(tx, attempts))[i] ==
            Collected(tx.infos[..i], tx.infos[i].spec, attempts, Encoded(tx))
  {
    hide Reach, Filled, Collected, Asks, Asked;
    if attempts == [] {
      NothingCollected(tx.infos[..i], tx.infos[i].spec, Encoded(tx));
    } else {
      var init, a, n := attempts[..|attempts| - 1], attempts[|attempts| - 1], Reach(tx.infos);
      RunCollects(tx, init, i);
      OneMoreAttempt(tx.infos[..i], tx.infos[i].spec, init, a, Encoded(tx));
      assert init + [a] == attempts;
      if Asked(tx.infos[..n], a.key) == 0 {
        NotAsked(tx.infos, a.key, n, i);
        var p := Allocated(tx.infos, Run(tx, init))[i];
        FillingNothing(tx.infos[i].spec, p, a, Encoded(tx), Asked(tx.infos[..i], a.key));
      }
    }
  }

  lemma NothingCollected(earlier: seq<SignerInfo>, spec: AddressSpec, body: Body)
    ensures Collected(earlier, spec, [], body) == Blank(spec)
  {
    if spec.multisig.Some? {
      assert Collected(earlier, spec, [], body).multisig.value == Blank(spec).multisig.value;
    }
  }

  /** The key has signed at the place, most recently under the context. */
  predicate Current(attempts: seq<Attempt>, key: Key, place: nat, ctx: Context) {
    match LastAttempt(attempts, key, place)
    case Some(a) => a.ctx == ctx
    case None => false
  }

  function LastAttempt(attempts: seq<Attempt>, key: Key, place: nat): Option<Attempt> {
    if attempts == [] then None
    else
      var a := attempts[|attempts| - 1];
      if a.key == key && Signs(a, place) then Some(a) else LastAttempt(attempts[..|attempts| - 1], key, place)
  }

  /** Some attempt got to sign at the place. */
  predicate HasSigned(attempts: seq<Attempt>, key: Key, place: nat) {
    exists a | a in attempts :: a.key == key && Signs(a, place)
  }

  lemma {:induction false} LastOfAttempts(attempts: seq<Attempt>, key: Key, place: nat, body: Body)
    ensures var last := LastAttempt(attempts, key, place);
            && (last.Some? <==> HasSigned(attempts, key, place))
            && (last.Some? ==> last.value in attempts && last.value.key == key)
            && Last(attempts, key, place, body) == match last case Some(a) => Some(SigOf(a, body)) case None => None
  {
    if attempts != [] {
      LastOfAttempts(attempts[..|attempts| - 1], key, place, body);
    }
  }

  /** The total weight, over the naturals, of the first `n` slots at which the attempts have signed. */
  function WeightSigned(earlier: seq<SignerInfo>, signers: seq<MultisigSigner>, attempts: seq<Attempt>, n: nat): nat
    requires n <= |signers|
  {
    if n == 0 then 0
    else
      var j := n - 1;
      WeightSigned(earlier, signers, attempts, j) +
      if HasSigned(attempts, signers[j].key, PlaceOf(earlier, signers, j)) then signers[j].weight else 0
  }

  /** The attempts authorise a specification: the single key has signed, or signers of sufficient
      weight have, and whoever has signed did so last under the right context. */
  predicate Authorises(earlier: seq<SignerInfo>, spec: AddressSpec, attempts: seq<Attempt>, ctx: Context) {
    match spec.signature
    case Some(k) => Current(attempts, k, Asked(earlier, k), ctx)
    case None =>
      && spec.multisig.Some?
      && var c := spec.multisig.value;
      && ValidConfig(c)
      && WeightSigned(earlier, c.signers, attempts, |c.signers|) >= c.threshold
      && forall j | 0 <= j < |c.signers| && HasSigned(attempts, c.signers[j].key, PlaceOf(earlier, c.signers, j)) ::
           Current(attempts, c.signers[j].key, PlaceOf(earlier, c.signers, j), ctx)
  }

  lemma {:induction false} WeightOfSlots(earlier: seq<SignerInfo>, signers: seq<MultisigSigner>,
                                         slots: seq<Option<Sig>>,
                                         attempts: seq<Attempt>, n: nat)
    requires |signers| == |slots| && n <= |signers|
    requires forall j | 0 <= j < |signers| ::
               slots[j].Some? <==> HasSigned(attempts, signers[j].key, PlaceOf(earlier, signers, j))
    ensures SignedWeight(signers[..n], slots[..n]) == WeightSigned(earlier, signers, attempts, n)
  {
    hide HasSigned, PlaceOf;
    if n > 0 {
      WeightOfSlots(earlier, signers, slots, attempts, n - 1);
      assert signers[..n][..n - 1] == signers[..n - 1] && slots[..n][..n - 1] == slots[..n - 1];
    }
  }

  lemma {:induction false} NoWeight(signers: seq<MultisigSigner>, slots: seq<Option<Sig>>)
    requires |signers| == |slots| && forall j | 0 <= j < |slots| :: slots[j].None?
    ensures SignedWeight(signers, slots) == 0
  {
    if signers != [] {
      NoWeight(signers[..|signers| - 1], slots[..|slots| - 1]);
    }
  }

  lemma {:induction false} PresentAreGenuine(signers: seq<MultisigSigner>, slots: seq<Option<Sig>>, ctx: Context,
                                             body: Body)
    requires |signers| == |slots|
    ensures AllGenuine(Present(signers, slots), ctx, body) <==>
            forall j | 0 <= j < |signers| && slots[j].Some? :: slots[j].value == Sig(signers[j].key, ctx, body)
  {
    if signers != [] {
      var n := |signers| - 1;
      PresentAreGenuine(signers[..n], slots[..n], ctx, body);
      var last := if slots[n].Some? then [(signers[n].key, slots[n].value)] else [];
      GenuineTogether(Present(signers[..n], slots[..n]), last, ctx, body);
      assert AllGenuine(last, ctx, body) <==> (slots[n].Some? ==> slots[n].value == Sig(signers[n].key, ctx, body)) by {
        if slots[n].Some? { assert last[0] == (signers[n].key, slots[n].value); }
      }
    }
  }

  lemma SlotsSatisfy(earlier: seq<SignerInfo>, c: MultisigConfig, slots: seq<Option<Sig>>, attempts: seq<Attempt>,
                     ctx: Context, body: Body)
    requires |slots| == |c.signers|
    requires forall j | 0 <= j < |slots| ::
               slots[j] == Last(attempts, c.signers[j].key, PlaceOf(earlier, c.signers, j), body)
    ensures Enough(c, slots) && AllGenuine(Present(c.signers, slots), ctx, body) <==>
            Authorises(earlier, AddressSpec(None, Some(c)), attempts, ctx)
  {
    hide HasSigned, PlaceOf, Last, LastAttempt, ValidConfig, AllGenuine, Present;
    forall j | 0 <= j < |slots|
      ensures var place := PlaceOf(earlier, c.signers, j);
              && (slots[j].Some? <==> HasSigned(attempts, c.signers[j].key, place))
              && (slots[j].Some? ==>
                    (slots[j].value == Sig(c.signers[j].key, ctx, body) <==>
                     Current(attempts, c.signers[j].key, place, ctx)))
    {
      LastOfAttempts(attempts, c.signers[j].key, PlaceOf(earlier, c.signers, j), body);
    }
    WeightOfSlots(earlier, c.signers, slots, attempts, |c.signers|);
    assert c.signers[..|c.signers|] == c.signers && slots[..|slots|] == slots;
    PresentAreGenuine(c.signers, slots, ctx, body);
  }

  lemma CollectedSatisfies(earlier: seq<SignerInfo>, spec: AddressSpec, attempts: seq<Attempt>, ctx: Context,
                           body: Body)
    ensures Satisfies(spec, Collected(earlier, spec, attempts, body), ctx, body) <==>
            Authorises(earlier, spec, attempts, ctx)
  {
    hide Last, LastAttempt, HasSigned, PlaceOf, ValidConfig, Present, SignedWeight, WeightSigned;
    var p := Collected(earlier, spec, attempts, body);
    if spec.signature.Some? {
      LastOfAttempts(attempts, spec.signature.value, Asked(earlier, spec.signature.value), body);
      if p.signature.Some? {
        assert AllGenuine([(spec.signature.value, p.signature.value)], ctx, body) <==>
               Genuine([(spec.signature.value, p.signature.value)][0], ctx, body);
      } else if spec.multisig.Some? {
        NoWeight(spec.multisig.value.signers, p.multisig.value);
        assert !Enough(spec.multisig.value, p.multisig.value) by { PositiveThreshold(spec.multisig.value); }
      }
    } else if spec.multisig.Some? {
      SlotsSatisfy(earlier, spec.multisig.value, p.multisig.value, attempts, ctx, body);
    }
  }

  lemma PositiveThreshold(c: MultisigConfig)
    ensures ValidConfig(c) ==> c.threshold > 0
  {
  }

  /** The whole transaction is authorised. */
  predicate Authorised(tx: Transaction, attempts: seq<Attempt>, ctx: Context) {
    && tx.version == LATEST_VERSION && tx.infos != []
    && forall i | 0 <= i < |tx.infos| :: Authorises(tx.infos[..i], tx.infos[i].spec, attempts, ctx)
  }

  /** Signing and then verifying succeeds exactly when the attempts authorise every signer info,
      for any attempts in any order, whether they fail at some place, repeat, come from strangers or
      use other contexts, and for any transaction, malformed ones included. */
  lemma SignedVerifies(tx: Transaction, attempts: seq<Attempt>, ctx: Context)
    ensures Verifies(UnverifiedTransaction(Encoded(tx), Run(tx, attempts)), ctx) <==> Authorised(tx, attempts, ctx)
  {
    hide Run, Satisfies, Authorises, Collected, Allocated;
    var ps, n := Run(tx, attempts), Reach(tx.infos);
    forall i | 0 <= i < n
      ensures Satisfies(tx.infos[i].spec, Allocated(tx.infos, ps)[i], ctx, Encoded(tx)) <==>
              Authorises(tx.infos[..i], tx.infos[i].spec, attempts, ctx)
    {
      RunCollects(tx, attempts, i);
      CollectedSatisfies(tx.infos[..i], tx.infos[i].spec, attempts, ctx, Encoded(tx));
    }
    if n < |tx.infos| {
      ReachAt(tx.infos, n);
      MalformedFails(tx.infos[..n], tx.infos[n].spec, attempts, ctx, Encoded(tx));
    } else if tx.infos != [] {
      RunAllocates(tx, attempts, ctx);
    }
  }

  lemma MalformedFails(earlier: seq<SignerInfo>, spec: AddressSpec, attempts: seq<Attempt>, ctx: Context, body: Body)
    requires Malformed(spec)
    ensures !Authorises(earlier, spec, attempts, ctx)
    ensures forall p :: !Satisfies(spec, p, ctx, body)
  {
  }

  /** No proof is of the module kind, and none at all means that nothing is authorised. */
  lemma RunAllocates(tx: Transaction, attempts: seq<Attempt>, ctx: Context)
    requires tx.infos != [] && Reach(tx.infos) == |tx.infos|
    ensures var ps := Run(tx, attempts);
            && (ps != [] ==> Allocated(tx.infos, ps) == ps && ps[0].scheme == "")
            && (ps == [] ==> !Authorises(tx.infos[..0], tx.infos[0].spec, attempts, ctx))
  {
    hide Run;
    RunCollects(tx, attempts, 0);
    if Run(tx, attempts) == [] {
      CollectedSatisfies(tx.infos[..0], tx.infos[0].spec, attempts, ctx, Encoded(tx));
      var spec := tx.infos[0].spec;
      if spec.multisig.Some? {
        NoWeight(spec.multisig.value.signers, Blank(spec).multisig.value);
      }
    }
  }

  function SignedKeys(attempts: seq<Attempt>): set<Key> {
    set a | a in attempts && a.signs.None? :: a.key
  }

  /** The total weight, over the naturals, of the signers whose key is in the set. */
  function WeightOf(signers: seq<MultisigSigner>, keys: set<Key>): nat {
    if signers == [] then 0
    else
      var last := signers[|signers| - 1];
      WeightOf(signers[..|signers| - 1], keys) + if last.key in keys then last.weight else 0
  }

  /** A set of keys is enough for a specification. */
  predicate Approves(spec: AddressSpec, keys: set<Key>) {
    match spec.signature
    case Some(k) => k in keys
    case None =>
      && spec.multisig.Some? && ValidConfig(spec.multisig.value)
      && WeightOf(spec.multisig.value.signers, keys) >= spec.multisig.value.threshold
  }

  /** Every attempt is under the context, and signs everywhere or nowhere. */
  predicate Honest(attempts: seq<Attempt>, ctx: Context) {
    forall a | a in attempts :: a.ctx == ctx && (a.signs.None? || a.signs == Some(0))
  }

  lemma HonestAttempts(attempts: seq<Attempt>, ctx: Context, key: Key, place: nat)
    requires Honest(attempts, ctx)
    ensures HasSigned(attempts, key, place) <==> key in SignedKeys(attempts)
    ensures Current(attempts, key, place, ctx) <==> key in SignedKeys(attempts)
  {
    LastOfAttempts(attempts, key, place, Garbage([]));
  }

  lemma {:induction false} HonestWeight(earlier: seq<SignerInfo>, signers: seq<MultisigSigner>, attempts: seq<Attempt>,
                                        ctx: Context, n: nat)
    requires Honest(attempts, ctx) && n <= |signers|
    ensures WeightSigned(earlier, signers, attempts, n) == WeightOf(signers[..n], SignedKeys(attempts))
  {
    hide HasSigned, PlaceOf, Honest, SignedKeys;
    if n > 0 {
      HonestWeight(earlier, signers, attempts, ctx, n - 1);
      assert signers[..n][..n - 1] == signers[..n - 1];
      HonestAttempts(attempts, ctx, signers[n - 1].key, PlaceOf(earlier, signers, n - 1));
    }
  }

  /** With every signer honest, only the set of keys that have signed matters. */
  lemma HonestSigning(tx: Transaction, attempts: seq<Attempt>, ctx: Context)
    requires Honest(attempts, ctx)
    ensures Verifies(UnverifiedTransaction(Encoded(tx), Run(tx, attempts)), ctx) <==>
            && tx.version == LATEST_VERSION && tx.infos != []
            && forall i | 0 <= i < |tx.infos| :: Approves(tx.infos[i].spec, SignedKeys(attempts))
  {
    hide Verifies, Run, HasSigned, Current, PlaceOf, WeightSigned, SignedKeys, Honest;
    SignedVerifies(tx, attempts, ctx);
    forall i | 0 <= i < |tx.infos|
      ensures Authorises(tx.infos[..i], tx.infos[i].spec, attempts, ctx) <==>
              Approves(tx.infos[i].spec, SignedKeys(attempts))
    {
      var earlier, spec := tx.infos[..i], tx.infos[i].spec;
      forall key, place ensures HasSigned(attempts, key, place) <==> key in SignedKeys(attempts)
                        ensures Current(attempts, key, place, ctx) <==> key in SignedKeys(attempts) {
        HonestAttempts(attempts, ctx, key, place);
      }
      if spec.multisig.Some? {
        var signers := spec.multisig.value.signers;
        HonestWeight(earlier, signers, attempts, ctx, |signers|);
        assert signers[..|signers|] == signers;
      }
    }
  }

  /** Prepare, sign and verify: the verified transaction is the one that was prepared. */
  method SignAndVerify(tx: Transaction, attempts: seq<Attempt>, ctx: Context) returns (r: Result<Transaction>)
    ensures r.Ok? <==> Authorised(tx, attempts, ctx)
    ensures r.Ok? ==> r.value == tx
  {
    hide Authorised, Verifies;
    var signer := new TransactionSigner.PrepareForSigning(tx);
    for i := 0 to |attempts|
      invariant fresh(signer) && signer.Valid() && signer.tx == tx && signer.proofs == Run(tx, attempts[..i])
    {
      assert attempts[..i + 1][..i] == attempts[..i];
      var _ := signer.AppendSign(attempts[i]);
    }
    assert attempts[..|attempts|] == attempts;
    SignedVerifies(tx, attempts, ctx);
    r := Verify(UnverifiedTransaction(signer.body, signer.proofs), ctx);
  }
}
