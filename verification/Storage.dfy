/** The global state under the byte strings the program uses as keys. */
module Storage {
  import opened Bytes
  import opened Messages
  import opened Contract
  import opened Teal
  import opened Program

  /** The global state as the machine stores it: `names` are the byte strings in use, keyOf says for which key. */
  ghost function Rename(names: set<Bytes>, keyOf: Bytes -> Key, g: Globals): map<Bytes, Value> {
    map b | b in names && keyOf(b) in g :: g[keyOf(b)]
  }

  ghost predicate Naming(names: set<Bytes>, keyOf: Bytes -> Key, name: Key -> Bytes) {
    && (forall k :: name(k) in names && keyOf(name(k)) == k)
    && (forall b | b in names :: name(keyOf(b)) == b)
  }

  lemma RenamePut(names: set<Bytes>, keyOf: Bytes -> Key, name: Key -> Bytes, g: Globals, k: Key, v: Value)
    requires Naming(names, keyOf, name)
    ensures Rename(names, keyOf, g)[name(k) := v] == Rename(names, keyOf, g[k := v])
  {
    var left, right := Rename(names, keyOf, g)[name(k) := v], Rename(names, keyOf, g[k := v]);
    forall b
      ensures b in left <==> b in right
      ensures b in left ==> left[b] == right[b]
    {
      if b in names && keyOf(b) == k {
        assert b == name(k);
      }
    }
  }

  const NAMES: set<Bytes> := set k: Key :: Name(k)

  function KeyOf(b: Bytes): Key {
    if b == Name(AliceAddress) then AliceAddress
    else if b == Name(BobAddress) then BobAddress
    else if b == Name(PenaltyReserve) then PenaltyReserve
    else if b == Name(DisputeWindow) then DisputeWindow
    else if b == Name(Timeout) then Timeout
    else if b == Name(ClosingInitiator) then ClosingInitiator
    else if b == Name(LatestAlice) then LatestAlice
    else if b == Name(LatestBob) then LatestBob
    else if b == Name(LatestTimestamp) then LatestTimestamp
    else TotalDeposit
  }

  lemma NamesDistinct()
    ensures Naming(NAMES, KeyOf, Name)
  {
    assert Name(AliceAddress)[0] == 97 && Name(TotalDeposit)[0] == 116;
    assert |Name(AliceAddress)| == 13 && |Name(BobAddress)| == 11 && |Name(PenaltyReserve)| == 15;
    assert |Name(DisputeWindow)| == 14 && |Name(Timeout)| == 7 && |Name(ClosingInitiator)| == 17;
    assert |Name(LatestAlice)| == 20 && |Name(LatestBob)| == 18 && |Name(LatestTimestamp)| == 16;
    assert |Name(TotalDeposit)| == 13;
    forall b | b in NAMES
      ensures Name(KeyOf(b)) == b
    {
      var k: Key :| b == Name(k);
      assert KeyOf(b) == k;
    }
  }

  // The keys as ASCII codes.

  /** alice_address */
  const ALICE_ADDRESS: Bytes := [97, 108, 105, 99, 101, 95, 97, 100, 100, 114, 101, 115, 115]

  /** bob_address */
  const BOB_ADDRESS: Bytes := [98, 111, 98, 95, 97, 100, 100, 114, 101, 115, 115]

  /** penalty_reserve */
  const PENALTY_RESERVE: Bytes := [112, 101, 110, 97, 108, 116, 121, 95, 114, 101, 115, 101, 114, 118, 101]

  /** dispute_window */
  const DISPUTE_WINDOW: Bytes := [100, 105, 115, 112, 117, 116, 101, 95, 119, 105, 110, 100, 111, 119]

  /** timeout */
  const TIMEOUT: Bytes := [116, 105, 109, 101, 111, 117, 116]

  /** closing_initiator */
  const CLOSING_INITIATOR: Bytes := [99, 108, 111, 115, 105, 110, 103, 95, 105, 110, 105, 116, 105, 97, 116, 111, 114]

  /** latest_alice_balance */
  const LATEST_ALICE_BALANCE: Bytes := [
    108, 97, 116, 101, 115, 116, 95, 97, 108, 105, 99, 101, 95, 98, 97, 108, 97, 110, 99, 101]

  /** latest_bob_balance */
  const LATEST_BOB_BALANCE: Bytes := [108, 97, 116, 101, 115, 116, 95, 98, 111, 98, 95, 98, 97, 108, 97, 110, 99, 101]

  /** latest_timestamp */
  const LATEST_TIMESTAMP: Bytes := [108, 97, 116, 101, 115, 116, 95, 116, 105, 109, 101, 115, 116, 97, 109, 112]

  /** total_deposit */
  const TOTAL_DEPOSIT: Bytes := [116, 111, 116, 97, 108, 95, 100, 101, 112, 111, 115, 105, 116]

  lemma ParametersSpelled()
    ensures Name(AliceAddress) == ALICE_ADDRESS
    ensures Name(BobAddress) == BOB_ADDRESS
    ensures Name(PenaltyReserve) == PENALTY_RESERVE
    ensures Name(DisputeWindow) == DISPUTE_WINDOW
    ensures Name(TotalDeposit) == TOTAL_DEPOSIT
  {
    hide Ascii;
    Spelled("alice_address", ALICE_ADDRESS);
    Spelled("bob_address", BOB_ADDRESS);
    Spelled("penalty_reserve", PENALTY_RESERVE);
    Spelled("dispute_window", DISPUTE_WINDOW);
    Spelled("total_deposit", TOTAL_DEPOSIT);
  }

  lemma ClosingSpelled()
    ensures Name(Timeout) == TIMEOUT
    ensures Name(ClosingInitiator) == CLOSING_INITIATOR
    ensures Name(LatestAlice) == LATEST_ALICE_BALANCE
    ensures Name(LatestBob) == LATEST_BOB_BALANCE
    ensures Name(LatestTimestamp) == LATEST_TIMESTAMP
  {
    hide Ascii;
    Spelled("timeout", TIMEOUT);
    Spelled("closing_initiator", CLOSING_INITIATOR);
    Spelled("latest_alice_balance", LATEST_ALICE_BALANCE);
    Spelled("latest_bob_balance", LATEST_BOB_BALANCE);
    Spelled("latest_timestamp", LATEST_TIMESTAMP);
  }

  ghost function Stored(g: Globals): map<Bytes, Value> {
    Rename(NAMES, KeyOf, g)
  }

  lemma StoredAt(g: Globals, k: Key)
    ensures (if Name(k) in Stored(g) then Stored(g)[Name(k)] else U(0)) == Read(g, k)
  {
    NamesDistinct();
  }

  lemma StoredPut(g: Globals, k: Key, v: Value)
    ensures Stored(g)[Name(k) := v] == Stored(g[k := v])
  {
    NamesDistinct();
    RenamePut(NAMES, KeyOf, Name, g, k, v);
  }

  /** What reading a typed state gives. */
  lemma TypedReads(g: Globals)
    requires WellTyped(g)
    ensures forall k :: !IsAddressKey(k) ==> Read(g, k) == U(Num(g, k))
    ensures AliceAddress in g && BobAddress in g
    ensures Read(g, AliceAddress) == B(Alice(g)) && Read(g, BobAddress) == B(Bob(g))
  {
  }
}
