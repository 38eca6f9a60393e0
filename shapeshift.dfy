/** ShapeShiftDataManager: the ShapeShift trade-metadata document kept as a
    nullable cached field (uninitialised or ready), fetch-or-create
    initialisation, optimistic appends rolled back on a failed save, and the
    quote-response and coin-pair mappings of the ShapeShift API calls. */
module ShapeShift {
  import opened JavaTypes

  /** `piuk.blockchain.android.data.stores.Either`. */
  datatype Either<+L, +R> = Left(left: L) | Right(right: R)

  /** The exceptions the manager lets escape. */
  datatype Failure =
    | NotInitialised        // IllegalStateException("ShapeShiftTrades not initialized")
    | KeyDerivationFailed   // deriving the metadata node from the master key threw
    | MetadataAccessFailed  // ShapeShiftTrades.load threw (network, decryption)
    | SaveFailed            // ShapeShiftTrades.save threw

  datatype Result<+T> = Ok(value: T) | Err(failure: Failure)

  /** What a `Completable` ends with. */
  datatype Outcome = Complete | Error(failure: Failure)

  // ---------------------------------------------------------------------------
  // Coin pairings and rates

  /** `ShapeShiftPairs.BTC_ETH` and `ShapeShiftPairs.ETH_BTC`. */
  const BtcEth: string := "btc_eth"
  const EthBtc: string := "eth_btc"

  /** The closed set of supported exchange directions, each with its pair code. */
  datatype CoinPairings = BtcToEth | EthToBtc {
    function PairCode(): (code: string)
      ensures PairingOf(code) == Some(this)
    {
      match this
      case BtcToEth => BtcEth
      case EthToBtc => EthBtc
    }
  }

  /** The pairing a pair code names, if any: the inverse of PairCode. */
  function PairingOf(code: string): Option<CoinPairings> {
    if code == BtcEth then Some(BtcToEth)
    else if code == EthBtc then Some(EthToBtc)
    else None
  }

  /** `getRate`: asks the rate endpoint about exactly the code of the pairing. */
  function GetRate<M>(rateEndpoint: string -> M, pairing: CoinPairings): (r: M)
    ensures exists code :: PairingOf(code) == Some(pairing) && r == rateEndpoint(code)
  {
    var code := pairing.PairCode();
    assert PairingOf(code) == Some(pairing);
    rateEndpoint(code)
  }

  // ---------------------------------------------------------------------------
  // Quotes

  /** A quote response of the ShapeShift API: an error message and a quote
      wrapper, either of which may be null. */
  datatype QuoteResponse<+Q> = QuoteResponse(error: Option<string>, wrapper: Option<Q>)

  /** The `when` that getQuote and getApproximateQuote apply to a response:
      the error when there is one, the wrapper (null or not) otherwise. */
  function QuoteResult<Q>(response: QuoteResponse<Q>): (r: Either<string, Option<Q>>)
    ensures r.Left? <==> response.error.Some?
    ensures r.Left? ==> r.left == response.error.value
    ensures r.Right? ==> r.right == response.wrapper
  {
    match response.error
    case Some(message) => Left(message)
    case None => Right(response.wrapper)
  }

  /** A response in the shape the API promises: exactly one of the two fields set. */
  predicate WellFormed<Q>(response: QuoteResponse<Q>) {
    response.error.Some? != response.wrapper.Some?
  }

  /** The response a result stands for. */
  function ResponseOf<Q>(r: Either<string, Option<Q>>): QuoteResponse<Q> {
    match r
    case Left(message) => QuoteResponse(Some(message), None)
    case Right(wrapper) => QuoteResponse(None, wrapper)
  }

  /** On a well-formed response the mapping loses nothing. */
  lemma QuoteResultLossless<Q>(response: QuoteResponse<Q>)
    requires WellFormed(response)
    ensures ResponseOf(QuoteResult(response)) == response
  {
  }

  /** When both fields are set, the error wins and the quote is dropped. */
  lemma QuoteErrorTakesPrecedence<Q>(message: string, quote: Q)
    ensures QuoteResult(QuoteResponse(Some(message), Some(quote))) == Left(message)
  {
  }

  /** `getQuote`: the firm-quote endpoint's response, mapped. */
  function GetQuote<Req, Q>(quoteEndpoint: Req -> QuoteResponse<Q>, request: Req): (r: Either<string, Option<Q>>)
    ensures r.Left? <==> quoteEndpoint(request).error.Some?
    ensures r.Left? ==> r.left == quoteEndpoint(request).error.value
    ensures r.Right? ==> r.right == quoteEndpoint(request).wrapper
  {
    QuoteResult(quoteEndpoint(request))
  }

  /** `getApproximateQuote`: the approximate-quote endpoint's response, mapped
      by the same rule. */
  function GetApproximateQuote<Req, Q>(approximateEndpoint: Req -> QuoteResponse<Q>, request: Req): (r: Either<string, Option<Q>>)
    ensures r.Left? <==> approximateEndpoint(request).error.Some?
    ensures r.Left? ==> r.left == approximateEndpoint(request).error.value
    ensures r.Right? ==> r.right == approximateEndpoint(request).wrapper
  {
    QuoteResult(approximateEndpoint(request))
  }

  // ---------------------------------------------------------------------------
  // Removing the first occurrence (`MutableList.remove`)

  /** `s` without its first element equal to `x`; `s` itself when there is none. */
  function RemoveFirst<T(==)>(s: seq<T>, x: T): (r: seq<T>)
    ensures |r| == if x in s then |s| - 1 else |s|
  {
    if s == [] then []
    else if s[0] == x then s[1..]
    else [s[0]] + RemoveFirst(s[1..], x)
  }

  /** The first index holding `x`. */
  function FirstIndex<T(==)>(s: seq<T>, x: T): (i: nat)
    requires x in s
    ensures i < |s| && s[i] == x && x !in s[..i]
  {
    if s[0] == x then 0
    else
      assert x in s[1..];
      var j := FirstIndex(s[1..], x);
      assert s[..j + 1] == [s[0]] + s[1..][..j];
      j + 1
  }

  /** RemoveFirst cuts out exactly the element at the first index holding `x`. */
  lemma {:induction false} RemoveFirstAtFirstIndex<T>(s: seq<T>, x: T)
    requires x in s
    ensures RemoveFirst(s, x) == s[..FirstIndex(s, x)] + s[FirstIndex(s, x) + 1..]
  {
    if s[0] != x {
      assert x in s[1..];
      RemoveFirstAtFirstIndex(s[1..], x);
      var j := FirstIndex(s[1..], x);
      assert s[..j + 1] == [s[0]] + s[1..][..j];
      assert s[j + 2..] == s[1..][j + 1..];
    }
  }

  /** Removing an element that is absent changes nothing. */
  lemma {:induction false} RemoveFirstAbsent<T>(s: seq<T>, x: T)
    requires x !in s
    ensures RemoveFirst(s, x) == s
  {
    if s != [] {
      RemoveFirstAbsent(s[1..], x);
    }
  }

  /** RemoveFirst takes exactly one copy of `x` out of the multiset. */
  lemma {:induction false} RemoveFirstMultiset<T>(s: seq<T>, x: T)
    ensures multiset(RemoveFirst(s, x)) == multiset(s) - multiset{x}
  {
    if s != [] {
      assert s == [s[0]] + s[1..];
      if s[0] != x {
        RemoveFirstMultiset(s[1..], x);
      }
    }
  }

  /** Rolling back an append of a trade not already present restores the list exactly. */
  lemma {:induction false} RollbackExact<T>(s: seq<T>, x: T)
    requires x !in s
    ensures RemoveFirst(s + [x], x) == s
  {
    if s != [] {
      assert (s + [x])[1..] == s[1..] + [x];
      RollbackExact(s[1..], x);
    }
  }

  /** Rolling back any append restores the multiset of the list. */
  lemma RollbackRestoresMultiset<T>(s: seq<T>, x: T)
    ensures multiset(RemoveFirst(s + [x], x)) == multiset(s)
  {
    RemoveFirstMultiset(s + [x], x);
  }

  /** A list shifted by one place against `x` is made of `x` only. */
  lemma {:induction false} ShiftedIsConstant<T>(t: seq<T>, x: T)
    ensures t + [x] == [x] + t <==> forall i :: 0 <= i < |t| ==> t[i] == x
  {
    if t != [] {
      ShiftedIsConstant(t[1..], x);
      if t + [x] == [x] + t {
        assert t[0] == ([x] + t)[0] == x;
        assert t[1..] + [x] == (t + [x])[1..] == ([x] + t)[1..] == t;
        assert t == [x] + t[1..];
      }
      if forall i :: 0 <= i < |t| ==> t[i] == x {
        assert t == [x] + t[1..];
        assert t[1..] + [x] == [x] + t[1..];
      }
    }
  }

  /** Rolling back an append restores the list exactly when the trade was new,
      or when every element from its first occurrence on equals it. */
  lemma {:induction false} RollbackExactIff<T>(s: seq<T>, x: T)
    ensures RemoveFirst(s + [x], x) == s <==>
      x !in s || forall i :: FirstIndex(s, x) < i < |s| ==> s[i] == x
  {
    if s == [] {
    } else if s[0] == x {
      assert (s + [x])[1..] == s[1..] + [x];
      ShiftedIsConstant(s[1..], x);
      assert s == [x] + s[1..];
      if forall i :: 0 < i < |s| ==> s[i] == x {
        assert forall i :: 0 <= i < |s[1..]| ==> s[1..][i] == s[i + 1];
      }
      if forall i :: 0 <= i < |s[1..]| ==> s[1..][i] == x {
        assert forall i :: 0 < i < |s| ==> s[i] == s[1..][i - 1];
      }
    } else {
      assert (s + [x])[1..] == s[1..] + [x];
      RollbackExactIff(s[1..], x);
      var t := RemoveFirst(s[1..] + [x], x);
      assert RemoveFirst(s + [x], x) == [s[0]] + t;
      assert s == [s[0]] + s[1..];
      if x in s {
        assert x in s[1..];
        var j := FirstIndex(s[1..], x);
        assert FirstIndex(s, x) == j + 1;
        assert forall i :: 0 <= i < |s[1..]| ==> s[1..][i] == s[i + 1];
      }
    }
  }

  /** Rolling back an append of a trade already present can reorder the
      list: [a, b] + [a] comes back as [b, a]. */
  lemma RollbackOfDuplicateReorders<T>(a: T, b: T)
    requires a != b
    ensures RemoveFirst([a, b] + [a], a) == [b, a] != [a, b]
  {
    assert [a, b] + [a] == [a, b, a];
    assert [a, b, a][1..] == [b, a];
  }

  // ---------------------------------------------------------------------------
  // Keys, the remote metadata service, the trade document

  /** One ShapeShift trade; only compared for equality here. */
  datatype Trade = Trade(status: string, hashIn: string, hashOut: string, timestamp: int)

  /** The wallet's BIP-32 master key. */
  datatype MasterKey = MasterKey(keyBytes: seq<bv8>)

  /** The address of a trade document in the metadata service. */
  datatype MetadataNode = MetadataNode(path: seq<bv8>)

  /** The remote metadata service: the trade list last saved at each node. */
  class MetadataService {
    var documents: map<MetadataNode, seq<Trade>>

    constructor (documents: map<MetadataNode, seq<Trade>>)
      ensures this.documents == documents
    {
      this.documents := documents;
    }
  }

  /** `ShapeShiftTrades`: the trade document bound to one metadata node, with
      its in-memory trade list. */
  class ShapeShiftTrades {
    const node: MetadataNode
    var trades: seq<Trade>

    constructor (node: MetadataNode, trades: seq<Trade>)
      ensures this.node == node && this.trades == trades
    {
      this.node := node;
      this.trades := trades;
    }

    /** `ShapeShiftTrades.load`: the document stored at `node`, null when
        there is none; `transportFails` is the service being unreachable. */
    static method Load(service: MetadataService, node: MetadataNode, transportFails: bool)
      returns (r: Result<ShapeShiftTrades?>)
      ensures transportFails ==> r == Err(MetadataAccessFailed)
      ensures !transportFails && node !in service.documents ==> r == Ok(null)
      ensures !transportFails && node in service.documents ==>
        r.Ok? && r.value != null && fresh(r.value)
        && r.value.node == node && r.value.trades == service.documents[node]
    {
      if transportFails {
        return Err(MetadataAccessFailed);
      }
      if node !in service.documents {
        return Ok(null);
      }
      var document := new ShapeShiftTrades(node, service.documents[node]);
      r := Ok(document);
    }

    /** `ShapeShiftTrades.save`: overwrite the remote copy with the current list. */
    method Save(service: MetadataService, transportFails: bool) returns (o: Outcome)
      modifies service
      ensures transportFails ==> o == Error(SaveFailed) && service.documents == old(service.documents)
      ensures !transportFails ==> o == Complete && service.documents == old(service.documents)[node := trades]
    {
      if transportFails {
        return Error(SaveFailed);
      }
      service.documents := service.documents[node := trades];
      o := Complete;
    }
  }

  // ---------------------------------------------------------------------------
  // The manager

  class ShapeShiftDataManager {
    const service: MetadataService
    /** `MetadataUtil.deriveMetadataNode`, a library call: the node of a key,
        or null when it throws. */
    const deriveMetadataNode: MasterKey -> Option<MetadataNode>
    /** Null until initialised; the document once initialised. */
    var shapeShiftTrades: ShapeShiftTrades?

    /** The in-memory list agrees with what the service holds for its node. */
    ghost predicate Synced()
      reads this, shapeShiftTrades, service
    {
      shapeShiftTrades != null ==>
        shapeShiftTrades.node in service.documents
        && service.documents[shapeShiftTrades.node] == shapeShiftTrades.trades
    }

    constructor (service: MetadataService, deriveMetadataNode: MasterKey -> Option<MetadataNode>)
      ensures this.service == service && this.deriveMetadataNode == deriveMetadataNode
      ensures shapeShiftTrades == null
    {
      this.service := service;
      this.deriveMetadataNode := deriveMetadataNode;
      shapeShiftTrades := null;
    }

    /** `initialiseTrades` / `fetchOrCreateMetadataNode`: load the document at
        the derived node; when there is none, create an empty one and save it. */
    method FetchOrCreateMetadataNode(masterKey: MasterKey, loadFails: bool, saveFails: bool)
      returns (r: Result<ShapeShiftTrades>)
      modifies this, service
      ensures var derived := deriveMetadataNode(masterKey);
        && (derived.None? ==>
              r == Err(KeyDerivationFailed)
              && shapeShiftTrades == old(shapeShiftTrades) && service.documents == old(service.documents))
        && (derived.Some? && loadFails ==>
              r == Err(MetadataAccessFailed)
              && shapeShiftTrades == old(shapeShiftTrades) && service.documents == old(service.documents))
        && (derived.Some? && !loadFails && derived.value in old(service.documents) ==>
              r.Ok? && r.value == shapeShiftTrades && fresh(shapeShiftTrades)
              && shapeShiftTrades.node == derived.value
              && shapeShiftTrades.trades == old(service.documents)[derived.value]
              && service.documents == old(service.documents))
        && (derived.Some? && !loadFails && derived.value !in old(service.documents) && saveFails ==>
              r == Err(SaveFailed)
              && shapeShiftTrades == null && service.documents == old(service.documents))
        && (derived.Some? && !loadFails && derived.value !in old(service.documents) && !saveFails ==>
              r.Ok? && r.value == shapeShiftTrades && fresh(shapeShiftTrades)
              && shapeShiftTrades.node == derived.value && shapeShiftTrades.trades == []
              && service.documents == old(service.documents)[derived.value := []])
      ensures r.Ok? ==> Synced()
    {
      var derived := deriveMetadataNode(masterKey);
      if derived.None? {
        return Err(KeyDerivationFailed);
      }
      var loaded := ShapeShiftTrades.Load(service, derived.value, loadFails);
      if loaded.Err? {
        return Err(loaded.failure);
      }
      shapeShiftTrades := loaded.value;
      if shapeShiftTrades == null {
        // ShapeShiftTrades(masterKey) derives the same node again.
        var created := new ShapeShiftTrades(derived.value, []);
        var saved := created.Save(service, saveFails);
        if saved.Error? {
          return Err(saved.failure);
        }
        shapeShiftTrades := created;
      }
      r := Ok(shapeShiftTrades);
    }

    /** `getTradesList`: the document's current list, or the illegal-state error. */
    method GetTradesList() returns (r: Result<seq<Trade>>)
      ensures shapeShiftTrades == null ==> r == Err(NotInitialised)
      ensures shapeShiftTrades != null ==> r == Ok(shapeShiftTrades.trades)
    {
      if shapeShiftTrades == null {
        return Err(NotInitialised);
      }
      r := Ok(shapeShiftTrades.trades);
    }

    /** `updateTradesList`: append in memory, save, and on a failed save
        remove the first trade equal to the one appended. */
    method UpdateTradesList(trade: Trade, saveFails: bool) returns (o: Outcome)
      modifies shapeShiftTrades, service
      ensures shapeShiftTrades == old(shapeShiftTrades)
      ensures shapeShiftTrades == null ==>
        o == Error(NotInitialised) && service.documents == old(service.documents)
      ensures shapeShiftTrades != null && !saveFails ==>
        o == Complete
        && shapeShiftTrades.trades == old(shapeShiftTrades.trades) + [trade]
        && service.documents == old(service.documents)[shapeShiftTrades.node := shapeShiftTrades.trades]
      ensures shapeShiftTrades != null && saveFails ==>
        o == Error(SaveFailed)
        && shapeShiftTrades.trades == RemoveFirst(old(shapeShiftTrades.trades) + [trade], trade)
        && multiset(shapeShiftTrades.trades) == multiset(old(shapeShiftTrades.trades))
        && (trade !in old(shapeShiftTrades.trades) ==> shapeShiftTrades.trades == old(shapeShiftTrades.trades))
        && service.documents == old(service.documents)
      ensures old(Synced()) && (shapeShiftTrades != null ==> !saveFails || trade !in old(shapeShiftTrades.trades)) ==> Synced()
    {
      if shapeShiftTrades == null {
        return Error(NotInitialised);
      }
      var document := shapeShiftTrades;
      ghost var before := document.trades;
      document.trades := document.trades + [trade];
      o := document.Save(service, saveFails);
      if o.Error? {
        document.trades := RemoveFirst(document.trades, trade);
        RollbackRestoresMultiset(before, trade);
        if trade !in before {
          RollbackExact(before, trade);
        }
      }
    }
  }

  /** The history of a first use: an empty service, one append that is
      saved, one whose save fails and is rolled back. */
  method FirstUseScenario(m1: MasterKey, t1: Trade, t2: Trade)
    requires t1 != t2
  {
    var service := new MetadataService(map[]);
    var manager := new ShapeShiftDataManager(service, (m: MasterKey) => Some(MetadataNode(m.keyBytes)));
    var listed := manager.GetTradesList();
    assert listed == Err(NotInitialised);

    var initialised := manager.FetchOrCreateMetadataNode(m1, false, false);
    assert initialised.Ok?;
    var document := initialised.value;
    assert manager.shapeShiftTrades == document && document.trades == [];
    assert service.documents[document.node] == [];

    var appended := manager.UpdateTradesList(t1, false);
    assert appended == Complete;
    assert document.trades == [] + [t1] == [t1];
    assert service.documents[document.node] == [t1];
    listed := manager.GetTradesList();
    assert listed == Ok([t1]);

    appended := manager.UpdateTradesList(t2, true);
    assert appended == Error(SaveFailed);
    assert t2 !in [t1] && document.trades == [t1];
    assert service.documents[document.node] == [t1];
    listed := manager.GetTradesList();
    assert listed == Ok([t1]);
  }
}
