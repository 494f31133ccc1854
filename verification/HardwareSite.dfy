/** Ownership of the spare pins of one output bank (rust/driver/src/hardware_site.rs:5-260). A mask is the set of the
    pins whose bit is set: union, intersection and difference stand for `|`, `&` and `& !`. */
module HardwareSite {
  import opened Wrappers

  type Mask = set<nat>

  /** The pins of an output byte. */
  const BYTE: Mask := {0, 1, 2, 3, 4, 5, 6, 7}

  datatype SiteError = Unavailable | StaleGeneration | InvalidMask | Fault

  datatype Binding = Binding(generation: nat, outputMask: Mask, initialHigh: Mask, safeHigh: Mask)

  datatype Request = Request(generation: nat, outputMask: Mask, highMask: Mask)

  /** The ownership part of a bank's state. */
  datatype Bank = Bank(
    generation: nat, outputs: Mask, reserved: Mask, claimed: Mask, safeHigh: Mask, requested: Mask, rejected: nat)

  /** A bank together with the byte it drives: the pins that are high. */
  datatype Side = Side(bank: Bank, byte: Mask)

  // ----- tokens -----

  const MAX_TOKEN: nat := 0xFFFF_FFFF_FFFF_FFFF

  /** The token handed out when the counter stands at `counter`; 0 once the tokens are used up. */
  function Token(counter: nat): nat {
    if counter < MAX_TOKEN then counter else 0
  }

  function Advanced(counter: nat): nat {
    if counter < MAX_TOKEN then counter + 1 else counter
  }

  // ----- operations -----

  /** A fresh ownership epoch without claims. */
  function NewBank(counter: nat, outputs: Mask, reserved: Mask, initial: Mask): Bank {
    Bank(Token(counter), outputs, reserved, {}, {}, initial, 0)
  }

  predicate Current(bank: Bank, generation: nat) {
    generation != 0 && generation == bank.generation
  }

  function ValidateBinding(bank: Bank, binding: Binding): Option<SiteError> {
    if !Current(bank, binding.generation) then Some(StaleGeneration)
    else if !(binding.outputMask <= bank.outputs && binding.outputMask !! bank.reserved) then Some(Unavailable)
    else if !(binding.initialHigh + binding.safeHigh <= binding.outputMask) then Some(InvalidMask)
    else None
  }

  function Bind(side: Side, binding: Binding, counter: nat): (Side, Option<SiteError>) {
    var bank := side.bank;
    match ValidateBinding(bank, binding)
    case Some(error) => (side, Some(error))
    case None =>
      if Token(counter) == 0 then (side, Some(StaleGeneration))
      else
        var removed := bank.claimed - binding.outputMask;
        var added := binding.outputMask - bank.claimed;
        var value := (side.byte - (removed + added)) + (bank.safeHigh * removed) + (binding.initialHigh * added);
        var safeHigh := (bank.safeHigh - binding.outputMask) + binding.safeHigh;
        (Side(bank.(generation := Token(counter), claimed := binding.outputMask, safeHigh := safeHigh, requested := value),
              value * BYTE),
         None)
  }

  function ValidateRequest(bank: Bank, request: Request): Option<SiteError> {
    if !Current(bank, request.generation) then Some(StaleGeneration)
    else if !(request.outputMask <= bank.claimed) then Some(Unavailable)
    else if !(request.highMask <= request.outputMask) then Some(InvalidMask)
    else None
  }

  function Apply(side: Side, request: Request): (Side, Option<SiteError>) {
    match ValidateRequest(side.bank, request)
    case Some(error) => (side, Some(error))
    case None =>
      var value := (side.byte - request.outputMask) + request.highMask;
      (Side(side.bank.(requested := value), value * BYTE), None)
  }

  function Rejected(bank: Bank): Bank {
    bank.(rejected := bank.rejected + 1)
  }

  /** Signalling takes pins over only from nobody. */
  function Reserve(bank: Bank, mask: Mask): (Bank, bool) {
    if !(bank.claimed !! mask) then (Rejected(bank), false)
    else (bank.(reserved := bank.reserved + mask, safeHigh := bank.safeHigh - mask), true)
  }

  predicate PermitsOrdinary(bank: Bank, mask: Mask) {
    mask <= bank.outputs && mask !! bank.claimed
  }

  function RetiredOutput(side: Side): Mask {
    ((side.byte - side.bank.claimed) + side.bank.safeHigh) * BYTE
  }

  function Retire(side: Side): Side {
    var byte := RetiredOutput(side);
    Side(side.bank.(requested := byte, generation := 0), byte)
  }

  function SafeHigh(bank: Bank): Mask {
    bank.safeHigh * BYTE
  }

  function RestoreSafeHigh(bank: Bank, high: Mask): Bank {
    var retained := high * bank.outputs - bank.reserved;
    bank.(safeHigh := (bank.safeHigh * bank.claimed) + (retained - bank.claimed))
  }

  function ReleaseSafeHigh(bank: Bank, mask: Mask): Bank {
    bank.(safeHigh := bank.safeHigh - mask)
  }

  // ----- the ownership invariant -----

  /** Everything fits the byte; claims are available outputs that nothing else reserves; safe levels are kept for such
      pins only; and a safe-high pin that nobody claims is high. */
  predicate Owned(side: Side) {
    var bank := side.bank;
    && bank.outputs <= BYTE && side.byte <= BYTE
    && bank.claimed <= bank.outputs && bank.claimed !! bank.reserved
    && bank.safeHigh <= bank.outputs && bank.safeHigh !! bank.reserved
    && bank.safeHigh - bank.claimed <= side.byte
  }

  /** The pins whose level differs. */
  function Changed(before: Mask, after: Mask): Mask {
    (before - after) + (after - before)
  }

  /** Binding keeps ownership and touches only pins that change owner; the pins it releases go to their safe level and
      the pins it takes to their initial level. The safe levels it was given are those kept for its pins, and those of
      other pins stay. It hands out the next token. */
  lemma BindKeepsOwned(side: Side, binding: Binding, counter: nat)
    requires Owned(side)
    ensures var (after, error) := Bind(side, binding, counter);
            && Owned(after)
            && (error.Some? ==> after == side)
            && (error.None? ==>
                  var removed := side.bank.claimed - binding.outputMask;
                  var added := binding.outputMask - side.bank.claimed;
                  && after.bank.claimed == binding.outputMask && after.bank.reserved == side.bank.reserved
                  && Changed(side.byte, after.byte) <= removed + added
                  && after.byte * removed == side.bank.safeHigh * removed
                  && after.byte * added == binding.initialHigh * added
                  && after.bank.safeHigh * binding.outputMask == binding.safeHigh
                  && after.bank.safeHigh - binding.outputMask == side.bank.safeHigh - binding.outputMask
                  && 0 < side.bank.generation && after.bank.generation == counter
                  && after.bank.outputs == side.bank.outputs && after.bank.rejected == side.bank.rejected
                  && after.bank.requested * BYTE == after.byte)
  {
  }

  /** Which bindings are accepted, and the first objection to any other: a token that is not the bank's, pins that are not
      available, levels for pins outside the mask, and at last that no token is left. */
  lemma BindAcceptedExactly(side: Side, binding: Binding, counter: nat)
    ensures var bank, error := side.bank, Bind(side, binding, counter).1;
            var current := 0 != binding.generation == bank.generation;
            var available := binding.outputMask <= bank.outputs && binding.outputMask !! bank.reserved;
            var fitting := binding.initialHigh <= binding.outputMask && binding.safeHigh <= binding.outputMask;
            var left := 0 < counter < MAX_TOKEN;
            && (error == None <==> current && available && fitting && left)
            && (error == Some(Unavailable) <==> current && !available)
            && (error == Some(InvalidMask) <==> current && available && !fitting)
            && (error == Some(StaleGeneration) <==> !current || (available && fitting && !left))
  {
  }

  /** Which requests are accepted: those with the bank's token that set only pins it has claimed. */
  lemma RequestAcceptedExactly(side: Side, request: Request)
    ensures var bank, error := side.bank, Apply(side, request).1;
            var current := 0 != request.generation == bank.generation;
            && (error == None <==>
                  current && request.outputMask <= bank.claimed && request.highMask <= request.outputMask)
            && (error == Some(Unavailable) <==> current && !(request.outputMask <= bank.claimed))
            && (error == Some(StaleGeneration) <==> !current)
  {
  }

  /** A site request sets exactly the pins it names, all of them claimed. */
  lemma ApplyKeepsOwned(side: Side, request: Request)
    requires Owned(side)
    ensures var (after, error) := Apply(side, request);
            && Owned(after)
            && (error.Some? ==> after == side)
            && (error.None? ==>
                  && Changed(side.byte, after.byte) <= request.outputMask <= side.bank.claimed
                  && after.byte * request.outputMask == request.highMask
                  && after.bank.(requested := side.bank.requested) == side.bank && after.bank.requested == after.byte)
  {
  }

  lemma ReserveKeepsOwned(side: Side, mask: Mask)
    requires Owned(side)
    ensures var (bank, taken) := Reserve(side.bank, mask);
            && Owned(Side(bank, side.byte))
            && (taken <==> side.bank.claimed !! mask)
            && (taken ==> bank.reserved == side.bank.reserved + mask && bank.safeHigh == side.bank.safeHigh - mask)
            && (!taken ==> bank == side.bank.(rejected := side.bank.rejected + 1))
            && bank.claimed == side.bank.claimed && bank.generation == side.bank.generation
  {
  }

  /** Retirement moves only claimed pins, and those to their safe level. */
  lemma RetireKeepsOwned(side: Side)
    requires Owned(side)
    ensures var after := Retire(side);
            && Owned(after)
            && Changed(side.byte, after.byte) <= side.bank.claimed
            && after.byte * side.bank.claimed == side.bank.safeHigh * side.bank.claimed
            && side.bank.safeHigh <= after.byte
            && after.bank == side.bank.(requested := after.byte, generation := 0)
  {
  }

  /** An unclaimed pin may be driven by an ordinary command once its safe level is released. */
  lemma OrdinaryKeepsOwned(side: Side, bit: Mask, byte: Mask)
    requires Owned(side) && PermitsOrdinary(side.bank, bit)
    requires Changed(side.byte, byte) <= bit && byte <= BYTE
    ensures Owned(Side(ReleaseSafeHigh(side.bank, bit), byte))
    ensures Changed(side.byte, byte) !! side.bank.claimed
  {
  }

  /** Restoring replaces the safe levels of unclaimed pins by the given ones that are available and not reserved, and
      keeps those of claimed pins. Ownership is kept exactly when every level it adds is already driven. */
  lemma RestoreKeepsOwned(side: Side, high: Mask)
    requires Owned(side)
    ensures var bank := RestoreSafeHigh(side.bank, high);
            && bank.safeHigh * bank.claimed == side.bank.safeHigh * side.bank.claimed
            && (forall pin :: pin !in side.bank.claimed ==>
                  (pin in bank.safeHigh <==> pin in high && pin in side.bank.outputs && pin !in side.bank.reserved))
            && bank.(safeHigh := {}) == side.bank.(safeHigh := {})
            && (Owned(Side(bank, side.byte)) <==> (high * side.bank.outputs - side.bank.reserved) - side.bank.claimed <= side.byte)
  {
    var bank := RestoreSafeHigh(side.bank, high);
    assert bank.safeHigh - bank.claimed == (high * side.bank.outputs - side.bank.reserved) - side.bank.claimed;
  }

  /** The counter `n` takes after it stood at `counter`. */
  function AfterTakes(counter: nat, n: nat): nat {
    if n == 0 then counter else Advanced(AfterTakes(counter, n - 1))
  }

  lemma {:induction false} TakesGrow(counter: nat, i: nat, j: nat)
    requires i <= j
    ensures AfterTakes(counter, i) <= AfterTakes(counter, j)
    ensures i < j && AfterTakes(counter, i) < MAX_TOKEN ==> AfterTakes(counter, i) < AfterTakes(counter, j)
    decreases j
  {
    if i < j {
      TakesGrow(counter, i, j - 1);
    }
  }

  /** However many tokens are taken, two of them are equal only once the tokens are used up: from then on every one is 0,
      which no bank accepts. */
  lemma TokensAreNeverReused(counter: nat, i: nat, j: nat)
    requires 0 < counter && i < j
    ensures Token(AfterTakes(counter, i)) == Token(AfterTakes(counter, j)) <==> Token(AfterTakes(counter, i)) == 0
  {
    TakesGrow(counter, 0, i);
    TakesGrow(counter, i, j);
  }
}
