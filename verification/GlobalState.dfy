/** Reading the application's global state from the node's listing of it. */
module GlobalState {
  import opened Bytes
  import opened Contract
  import opened Program
  import opened OffChain
  import Storage

  /** One entry of the listing, its key and bytes already decoded. */
  datatype Entry = Entry(key: Bytes, value: Value)

  /** The listing shows exactly the state g, in some order. */
  ghost predicate Lists(entries: seq<Entry>, g: Globals) {
    && (forall i, j | 0 <= i < j < |entries| :: entries[i].key != entries[j].key)
    && (forall k | k in g :: exists i :: 0 <= i < |entries| && entries[i] == Entry(Name(k), g[k]))
    && (forall i | 0 <= i < |entries| :: exists k :: k in g && entries[i] == Entry(Name(k), g[k]))
  }

  // ----- decimal numbers -----

  /** `strconv.FormatUint` in base 10. */
  function FormatUint(n: nat): (s: string)
    ensures s != ""
  {
    var digit := ['0' + (n % 10) as char];
    if n < 10 then digit else FormatUint(n / 10) + digit
  }

  /** `strconv.ParseUint`, and `Sscanf` with %d on digits alone: None for anything but decimal digits. */
  function ParseUint(s: string): Option<nat> {
    if s == "" || !('0' <= s[|s| - 1] <= '9') then None
    else
      var digit := (s[|s| - 1] - '0') as int;
      if |s| == 1 then Some(digit)
      else
        match ParseUint(s[..|s| - 1])
        case None => None
        case Some(n) => Some(10 * n + digit)
  }

  /** Parsing undoes formatting. */
  lemma {:induction false} ParseFormat(n: nat)
    ensures ParseUint(FormatUint(n)) == Some(n)
  {
    if n >= 10 {
      ParseFormat(n / 10);
      var s := FormatUint(n);
      assert s[..|s| - 1] == FormatUint(n / 10);
    }
  }

  /** The base is ten, and the first digit is not a zero that could be left out. */
  lemma {:induction false} FormatDecimal(n: nat)
    ensures FormatUint(4161) == "4161" && ParseUint("4161") == Some(4161)
    ensures forall i | 0 <= i < |FormatUint(n)| :: '0' <= FormatUint(n)[i] <= '9'
    ensures n > 0 ==> FormatUint(n)[0] != '0'
  {
    assert FormatUint(416) == "416";
    ParseFormat(4161);
    if n >= 10 {
      FormatDecimal(n / 10);
    }
  }

  /** What the lookup hands back: raw bytes, or a number in decimal. */
  datatype Found = Raw(bytes: Bytes) | Decimal(digits: string)

  function Shown(v: Value): Found {
    match v
    case U(n) => Decimal(FormatUint(n))
    case B(b) => Raw(b)
  }

  /** `GetValueOfGlobalState`: the first entry under the key. */
  method GetValueOfGlobalState(entries: seq<Entry>, key: Bytes) returns (found: Option<Found>)
    ensures found.None? ==> forall i | 0 <= i < |entries| :: entries[i].key != key
    ensures found.Some? ==>
              exists i :: 0 <= i < |entries| && entries[i].key == key && found == Some(Shown(entries[i].value))
                          && forall j | 0 <= j < i :: entries[j].key != key
  {
    for i := 0 to |entries|
      invariant forall j | 0 <= j < i :: entries[j].key != key
    {
      if entries[i].key == key {
        return Some(Shown(entries[i].value));
      }
    }
    return None;
  }

  /** On a listing of g the lookup finds what g stores under the key, whatever the order. */
  method ReadKey(entries: seq<Entry>, ghost g: Globals, k: Key) returns (found: Option<Found>)
    requires Lists(entries, g)
    ensures found == if k in g then Some(Shown(g[k])) else None
  {
    hide Name;
    found := GetValueOfGlobalState(entries, Name(k));
    Storage.NamesDistinct();
  }

  /** The number stored last under a key among the entries; 0 when there is none. */
  function LastNum(entries: seq<Entry>, key: Bytes): u64 {
    if entries == [] then 0
    else
      var e := entries[|entries| - 1];
      if e.key == key && e.value.U? then e.value.num else LastNum(entries[..|entries| - 1], key)
  }

  function LastBytes(entries: seq<Entry>, key: Bytes): Bytes {
    if entries == [] then []
    else
      var e := entries[|entries| - 1];
      if e.key == key && e.value.B? then e.value.bytes else LastBytes(entries[..|entries| - 1], key)
  }

  lemma {:induction false} LastNumFound(entries: seq<Entry>, key: Bytes, i: nat)
    requires i < |entries| && entries[i].key == key && entries[i].value.U?
    requires forall j | i < j < |entries| :: entries[j].key != key
    ensures LastNum(entries, key) == entries[i].value.num
  {
    if i < |entries| - 1 {
      LastNumFound(entries[..|entries| - 1], key, i);
    }
  }

  lemma {:induction false} LastNumMissing(entries: seq<Entry>, key: Bytes)
    requires forall j | 0 <= j < |entries| :: entries[j].key != key
    ensures LastNum(entries, key) == 0
  {
    if entries != [] {
      LastNumMissing(entries[..|entries| - 1], key);
    }
  }

  lemma {:induction false} LastBytesFound(entries: seq<Entry>, key: Bytes, i: nat)
    requires i < |entries| && entries[i].key == key && entries[i].value.B?
    requires forall j | i < j < |entries| :: entries[j].key != key
    ensures LastBytes(entries, key) == entries[i].value.bytes
  {
    if i < |entries| - 1 {
      LastBytesFound(entries[..|entries| - 1], key, i);
    }
  }

  /** On a listing of g the collected numbers and addresses are those of g. */
  lemma ListedNum(entries: seq<Entry>, g: Globals, k: Key)
    requires Lists(entries, g) && WellTyped(g) && !IsAddressKey(k)
    ensures LastNum(entries, Name(k)) == Num(g, k)
  {
    hide Name;
    Storage.NamesDistinct();
    if k in g {
      var i :| 0 <= i < |entries| && entries[i] == Entry(Name(k), g[k]);
      LastNumFound(entries, Name(k), i);
    } else {
      LastNumMissing(entries, Name(k));
    }
  }

  lemma ListedAddress(entries: seq<Entry>, g: Globals, k: Key)
    requires Lists(entries, g) && WellTyped(g) && k in g && g[k].B?
    ensures LastBytes(entries, Name(k)) == g[k].bytes
  {
    hide Name;
    var i :| 0 <= i < |entries| && entries[i] == Entry(Name(k), g[k]);
    LastBytesFound(entries, Name(k), i);
  }

  /** What a node should remember of an application with the state g. */
  function InfoOf(app: u64, g: Globals): Info
    requires WellTyped(g)
  {
    Info(app, Alice(g), Bob(g), Num(g, LatestAlice), Num(g, LatestBob),
         Num(g, TotalDeposit), Num(g, PenaltyReserve), Num(g, DisputeWindow))
  }

  /** The loop of `savePaymentChannelOnChainState` over the entries; only bytes of an address's length are encoded. */
  method CollectInfo(app: u64, entries: seq<Entry>) returns (info: Info)
    requires forall e | e in entries :: e.value.B? ==> |e.value.bytes| == 32
    ensures info == Info(app, LastBytes(entries, Name(AliceAddress)), LastBytes(entries, Name(BobAddress)),
                         LastNum(entries, Name(LatestAlice)), LastNum(entries, Name(LatestBob)),
                         LastNum(entries, Name(TotalDeposit)), LastNum(entries, Name(PenaltyReserve)),
                         LastNum(entries, Name(DisputeWindow)))
  {
    hide Name;
    Storage.NamesDistinct();
    info := Info(app, [], [], 0, 0, 0, 0, 0);
    for i := 0 to |entries|
      invariant var seen := entries[..i];
                info == Info(app, LastBytes(seen, Name(AliceAddress)), LastBytes(seen, Name(BobAddress)),
                             LastNum(seen, Name(LatestAlice)), LastNum(seen, Name(LatestBob)),
                             LastNum(seen, Name(TotalDeposit)), LastNum(seen, Name(PenaltyReserve)),
                             LastNum(seen, Name(DisputeWindow)))
    {
      var e := entries[i];
      assert entries[..i + 1][..i] == entries[..i];
      match e.value
      case B(b) =>
        if e.key == Name(AliceAddress) {
          info := info.(alice := b);
        } else if e.key == Name(BobAddress) {
          info := info.(bob := b);
        }
      case U(n) =>
        if e.key == Name(DisputeWindow) {
          info := info.(window := n);
        } else if e.key == Name(TotalDeposit) {
          info := info.(deposit := n);
        } else if e.key == Name(PenaltyReserve) {
          info := info.(penalty := n);
        } else if e.key == Name(LatestAlice) {
          info := info.(aliceOnChain := n);
        } else if e.key == Name(LatestBob) {
          info := info.(bobOnChain := n);
        }
    }
    assert entries[..|entries|] == entries;
  }

  /** From a listing of g, in whatever order, the node remembers g's participants, parameters and balances. */
  lemma CollectedIsListed(app: u64, entries: seq<Entry>, g: Globals)
    requires Lists(entries, g) && WellTyped(g)
    ensures Info(app, LastBytes(entries, Name(AliceAddress)), LastBytes(entries, Name(BobAddress)),
                 LastNum(entries, Name(LatestAlice)), LastNum(entries, Name(LatestBob)),
                 LastNum(entries, Name(TotalDeposit)), LastNum(entries, Name(PenaltyReserve)),
                 LastNum(entries, Name(DisputeWindow)))
         == InfoOf(app, g)
  {
    hide Name;
    ListedAddress(entries, g, AliceAddress);
    ListedAddress(entries, g, BobAddress);
    ListedNum(entries, g, LatestAlice);
    ListedNum(entries, g, LatestBob);
    ListedNum(entries, g, TotalDeposit);
    ListedNum(entries, g, PenaltyReserve);
    ListedNum(entries, g, DisputeWindow);
  }
}
