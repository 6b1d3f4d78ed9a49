/** The `qtum_getUTXOs` handler: turns the node's UTXO entries for an address
    into Ethereum-facing records (type, safety, maturity, confirmations) and
    either returns all of them or stops as soon as the safe ones add up to the
    requested minimum.

    The node is an abstract value: its UTXO list, block count, mempool and the
    inputs of each mempool transaction, each with its error answer, and the
    maturity depth and the script classification, which have none. Amounts
    are integer satoshis. */
module GetUtxos {
  import opened Rpc

  /** A script type as the request names it; `AllUtxoTypes` and `Immature`
      are the two pseudo-types the handler treats specially. */
  datatype ScriptType = AllUtxoTypes | Immature | Kind(name: string)

  /** A UTXO entry as the node reports it. */
  datatype Utxo = Utxo(
    address: string, txid: string, outputIndex: nat, satoshis: nat,
    script: string, height: nat, isStake: bool, isBase: bool)

  /** A UTXO record as the handler returns it; `amount` is in satoshis. */
  datatype QtumUtxo = QtumUtxo(
    address: string, txid: string, vout: nat, amount: nat,
    scriptPubKey: string, height: nat, utxoType: ScriptType,
    safe: bool, confirmations: int, spendable: bool)

  /** An input of a mempool transaction: the output it spends. */
  datatype Vin = Vin(id: string, vout: nat)

  datatype GetUtxosRequest = GetUtxosRequest(minSumAmount: int, types: seq<ScriptType>)

  /** What the node answers during one request. */
  datatype UtxoNode = UtxoNode(
    addressUtxos: Result<seq<Utxo>, string>,
    blockCount: Result<nat, string>,
    rawMempool: Result<seq<string>, string>,
    rawTransaction: string -> Result<seq<Vin>, string>,
    matureBlockHeight: nat,
    classify: string -> ScriptType)

  /** Everything the selection loop depends on. */
  datatype Selection = Selection(
    blockCount: nat, matureDepth: nat, inFlight: seq<string>,
    minimumSum: int, types: seq<ScriptType>, classify: string -> ScriptType)

  /** What the loop does with one entry: skip it, keep the record, or panic. */
  datatype Verdict = Dropped | Keep(entry: QtumUtxo) | NegativeConfirmations

  const MINIMUM_NOT_REACHED_MESSAGE := "required minimum amount is greater than total amount of UTXOs"
  const NEGATIVE_CONFIRMATIONS_MESSAGE := "Computed negative confirmations"

  // ---------------------------------------------------------------------------
  // Helpers of the loop
  // ---------------------------------------------------------------------------

  /** `Contains`: a linear search with early return. */
  method Contains(sl: seq<string>, name: string) returns (found: bool)
    ensures found <==> name in sl
  {
    for i := 0 to |sl|
      invariant name !in sl[..i]
    {
      if sl[i] == name {
        return true;
      }
      assert sl[..i + 1] == sl[..i] + [sl[i]];
    }
    assert sl[..|sl|] == sl;
    return false;
  }

  /** `toEthResponseType`: copies address, txid, output index and amount;
      every other field keeps Go's zero value. */
  function ToEthResponseType(u: Utxo): (r: QtumUtxo)
    ensures r.address == u.address && r.txid == u.txid && r.vout == u.outputIndex && r.amount == u.satoshis
    ensures !r.safe && !r.spendable && r.confirmations == 0 && r.height == 0
  {
    QtumUtxo(u.address, u.txid, u.outputIndex, u.satoshis, "", 0, Kind(""), false, 0, false)
  }

  /** The ids of the outputs that some inputs spend (txids only). */
  function VinIds(vins: seq<Vin>): seq<string>
  {
    seq(|vins|, i requires 0 <= i < |vins| => vins[i].id)
  }

  /** The specification of the mempool scan: the ids spent by the inputs of
      every mempool transaction, in order; the first failing lookup ends it. */
  function MempoolInputs(hashes: seq<string>, rawTx: string -> Result<seq<Vin>, string>): (r: Result<seq<string>, string>)
    ensures r.Ok? <==> forall h :: h in hashes ==> rawTx(h).Ok?
    ensures r.Ok? ==> forall id :: id in r.value <==> SpentBy(hashes, rawTx, id)
    ensures r.Err? ==>
      exists k :: 0 <= k < |hashes| && rawTx(hashes[k]) == Err(r.error) &&
        (forall j :: 0 <= j < k ==> rawTx(hashes[j]).Ok?)
    decreases |hashes|
  {
    if hashes == [] then Ok([])
    else match rawTx(hashes[0])
      case Err(e) => Err(e)
      case Ok(vins) =>
        match MempoolInputs(hashes[1..], rawTx)
        case Err(e) => Err(e)
        case Ok(rest) =>
          MempoolInputsStep(hashes, rawTx, vins, rest);
          Ok(VinIds(vins) + rest)
  }

  /** Ghost form of "some mempool transaction has an input spending `id`". */
  ghost predicate SpentBy(hashes: seq<string>, rawTx: string -> Result<seq<Vin>, string>, id: string)
  {
    exists h, v :: h in hashes && rawTx(h).Ok? && v in rawTx(h).value && v.id == id
  }

  lemma VinIdsHas(vins: seq<Vin>, id: string)
    ensures id in VinIds(vins) <==> exists v :: v in vins && v.id == id
  {
    if id in VinIds(vins) {
      var i :| 0 <= i < |vins| && VinIds(vins)[i] == id;
      assert vins[i] in vins;
    }
    if exists v :: v in vins && v.id == id {
      var v :| v in vins && v.id == id;
      var i :| 0 <= i < |vins| && vins[i] == v;
      assert VinIds(vins)[i] == id;
    }
  }

  lemma MempoolInputsStep(hashes: seq<string>, rawTx: string -> Result<seq<Vin>, string>, vins: seq<Vin>, rest: seq<string>)
    requires hashes != [] && rawTx(hashes[0]) == Ok(vins)
    requires forall id :: id in rest <==> SpentBy(hashes[1..], rawTx, id)
    ensures forall id :: id in VinIds(vins) + rest <==> SpentBy(hashes, rawTx, id)
  {
    forall id
      ensures id in VinIds(vins) + rest <==> SpentBy(hashes, rawTx, id)
    {
      VinIdsHas(vins, id);
      if SpentBy(hashes, rawTx, id) {
        var h, v :| h in hashes && rawTx(h).Ok? && v in rawTx(h).value && v.id == id;
        if h != hashes[0] {
          assert h in hashes[1..];
          assert SpentBy(hashes[1..], rawTx, id);
        }
      }
      if id in rest {
        var h, v :| h in hashes[1..] && rawTx(h).Ok? && v in rawTx(h).value && v.id == id;
        assert h in hashes;
      }
    }
  }

  function Prepend(ids: seq<string>, r: Result<seq<string>, string>): Result<seq<string>, string>
  {
    match r
    case Ok(rest) => Ok(ids + rest)
    case Err(e) => Err(e)
  }

  /** One transaction of the mempool scan: its input ids go before those of
      the transactions after it. */
  lemma MempoolInputsUnfold(hashes: seq<string>, rawTx: string -> Result<seq<Vin>, string>, i: nat, ids: seq<string>, vins: seq<Vin>)
    requires i < |hashes| && rawTx(hashes[i]) == Ok(vins)
    ensures Prepend(ids, MempoolInputs(hashes[i..], rawTx))
      == Prepend(ids + VinIds(vins), MempoolInputs(hashes[i + 1..], rawTx))
  {
    assert hashes[i..][1..] == hashes[i + 1..];
    match MempoolInputs(hashes[i + 1..], rawTx)
    case Err(_) =>
    case Ok(rest) => assert ids + (VinIds(vins) + rest) == (ids + VinIds(vins)) + rest;
  }

  /** The inner loop: appends the id of each input. */
  method AppendVinIds(ids: seq<string>, vins: seq<Vin>) returns (r: seq<string>)
    ensures r == ids + VinIds(vins)
  {
    r := ids;
    for j := 0 to |vins|
      invariant r == ids + VinIds(vins[..j])
    {
      assert VinIds(vins[..j + 1]) == VinIds(vins[..j]) + [vins[j].id];
      r := r + [vins[j].id];
    }
    assert vins[..|vins|] == vins;
  }

  /** The nested loops that collect the ids spent by mempool transactions. */
  method CollectMempoolInputs(hashes: seq<string>, rawTx: string -> Result<seq<Vin>, string>)
    returns (r: Result<seq<string>, string>)
    ensures r == MempoolInputs(hashes, rawTx)
  {
    var ids: seq<string> := [];
    assert hashes[0..] == hashes;
    match MempoolInputs(hashes, rawTx) {
      case Err(_) =>
      case Ok(all) => assert [] + all == all;
    }
    for i := 0 to |hashes|
      invariant MempoolInputs(hashes, rawTx) == Prepend(ids, MempoolInputs(hashes[i..], rawTx))
    {
      var tx := rawTx(hashes[i]);
      if tx.Err? {
        assert hashes[i..][0] == hashes[i];
        return Err(tx.error);
      }
      MempoolInputsUnfold(hashes, rawTx, i, ids, tx.value);
      ids := AppendVinIds(ids, tx.value);
    }
    assert hashes[|hashes|..] == [];
    assert ids + [] == ids;
    return Ok(ids);
  }

  /** `utxoTypes`: the requested types as a map to true. */
  method TypeSet(types: seq<ScriptType>) returns (m: map<ScriptType, bool>)
    ensures forall t :: t in m <==> t in types
    ensures forall t :: t in m ==> m[t]
  {
    m := map[];
    for i := 0 to |types|
      invariant forall t :: t in m <==> t in types[..i]
      invariant forall t :: t in m ==> m[t]
    {
      assert types[..i + 1] == types[..i] + [types[i]];
      m := m[types[i] := true];
    }
    assert types[..|types|] == types;
  }

  // ---------------------------------------------------------------------------
  // Classification of one entry
  // ---------------------------------------------------------------------------

  /** All types are accepted when none is named or when the FIRST named type
      is the "all" pseudo-type. */
  predicate AllTypesRequested(types: seq<ScriptType>)
  {
    |types| == 0 || types[0] == AllUtxoTypes
  }

  /** A stake or coinbase output whose maturity height has not been passed. */
  predicate IsImmature(u: Utxo, blockCount: nat, matureDepth: nat)
  {
    (u.isStake || u.isBase) && blockCount <= u.height + matureDepth
  }

  /** What the loop body does with one node entry. */
  function Examine(u: Utxo, sel: Selection): (v: Verdict)
    ensures v.Dropped? <==>
      !AllTypesRequested(sel.types) &&
      (sel.classify(u.script) !in sel.types ||
       (IsImmature(u, sel.blockCount, sel.matureDepth) && Immature !in sel.types))
    ensures v.NegativeConfirmations? <==> !v.Dropped? && sel.blockCount < u.height
    ensures v.Keep? ==>
      && v.entry.address == u.address && v.entry.txid == u.txid
      && v.entry.vout == u.outputIndex && v.entry.amount == u.satoshis
      && v.entry.height == u.height && v.entry.scriptPubKey == u.script
      && v.entry.utxoType == sel.classify(u.script)
    ensures v.Keep? ==>
      v.entry.confirmations == sel.blockCount - u.height >= 0 && v.entry.spendable
    ensures v.Keep? ==>
      (v.entry.safe <==> u.txid !in sel.inFlight && !IsImmature(u, sel.blockCount, sel.matureDepth))
    ensures v.Keep? && !AllTypesRequested(sel.types) ==> v.entry.utxoType in sel.types
    ensures v.Keep? && IsImmature(u, sel.blockCount, sel.matureDepth) ==>
      AllTypesRequested(sel.types) || Immature in sel.types
  {
    var t := sel.classify(u.script);
    var all := AllTypesRequested(sel.types);
    var immature := IsImmature(u, sel.blockCount, sel.matureDepth);
    if !all && t !in sel.types then Dropped
    else if immature && !all && Immature !in sel.types then Dropped
    else if sel.blockCount - u.height < 0 then NegativeConfirmations
    else
      var safe := u.txid !in sel.inFlight && !immature;
      Keep(ToEthResponseType(u).(
        height := u.height, scriptPubKey := u.script, utxoType := t,
        safe := safe, confirmations := sel.blockCount - u.height, spendable := true))
  }

  /** The verdict of the loop body on each node entry, in the node's order. */
  function Verdicts(us: seq<Utxo>, sel: Selection): seq<Verdict>
  {
    seq(|us|, i requires 0 <= i < |us| => Examine(us[i], sel))
  }

  function KeptOf(v: Verdict): seq<QtumUtxo>
  {
    if v.Keep? then [v.entry] else []
  }

  /** The records of the kept verdicts, in order. */
  function Kept(vs: seq<Verdict>): seq<QtumUtxo>
  {
    if vs == [] then [] else KeptOf(vs[0]) + Kept(vs[1..])
  }

  /** The records of every entry the loop body keeps, in the node's order. */
  function Accepted(us: seq<Utxo>, sel: Selection): seq<QtumUtxo>
  {
    Kept(Verdicts(us, sel))
  }

  function SafeAmount(e: QtumUtxo): nat
  {
    if e.safe then e.amount else 0
  }

  /** The sum of the amounts of the safe records. */
  function SafeSum(es: seq<QtumUtxo>): nat
  {
    if es == [] then 0 else SafeAmount(es[0]) + SafeSum(es[1..])
  }

  // ---------------------------------------------------------------------------
  // The selection loop
  // ---------------------------------------------------------------------------

  /** The specification of the loop from a given verdict on: `sum` is the
      safe sum of the records `acc` selected so far. */
  function Run(vs: seq<Verdict>, minimumSum: int, sum: nat, acc: seq<QtumUtxo>): Result<seq<QtumUtxo>, RpcError>
    decreases |vs|
  {
    if vs == [] then
      if minimumSum == 0 then Ok(acc) else Err(CallbackError(MINIMUM_NOT_REACHED_MESSAGE))
    else
      match vs[0]
      case Dropped => Run(vs[1..], minimumSum, sum, acc)
      case NegativeConfirmations => Err(Panic(NEGATIVE_CONFIRMATIONS_MESSAGE))
      case Keep(e) =>
        var sum' := sum + SafeAmount(e);
        if minimumSum != 0 && sum' >= minimumSum then Ok(acc + [e])
        else Run(vs[1..], minimumSum, sum', acc + [e])
  }

  /** The outcome of the selection over the node's entries. */
  function Selected(us: seq<Utxo>, sel: Selection): Result<seq<QtumUtxo>, RpcError>
  {
    Run(Verdicts(us, sel), sel.minimumSum, 0, [])
  }

  /** Lines 95-164 of the handler: classify, filter, mark and accumulate, one
      entry at a time, returning as soon as the minimum is reached. */
  method SelectUtxos(us: seq<Utxo>, sel: Selection) returns (r: Result<seq<QtumUtxo>, RpcError>)
    ensures r == Selected(us, sel)
  {
    ghost var vs := Verdicts(us, sel);
    var queryingAll := sel.minimumSum == 0;
    var allUtxoTypes := false;
    if |sel.types| > 0 {
      if sel.types[0] == AllUtxoTypes {
        allUtxoTypes := true;
      }
    } else {
      allUtxoTypes := true;
    }
    var utxoTypes := TypeSet(sel.types);
    var utxos: seq<QtumUtxo> := [];
    var minUtxosSum: nat := 0;
    assert vs[0..] == vs;
    for i := 0 to |us|
      invariant Selected(us, sel) == Run(vs[i..], sel.minimumSum, minUtxosSum, utxos)
    {
      assert vs[i..][0] == Examine(us[i], sel);
      assert vs[i..][1..] == vs[i + 1..];
      var u := us[i];
      var ethUtxo := ToEthResponseType(u);
      ethUtxo := ethUtxo.(height := u.height, scriptPubKey := u.script);
      var utxoType := sel.classify(u.script);
      ethUtxo := ethUtxo.(utxoType := utxoType, safe := true);
      if !allUtxoTypes && utxoType !in utxoTypes {
        continue;
      }
      var inMempool := Contains(sel.inFlight, u.txid);
      if inMempool {
        ethUtxo := ethUtxo.(safe := false);
      }
      if u.isStake || u.isBase {
        var matureAt := u.height + sel.matureDepth;
        if sel.blockCount <= matureAt {
          ethUtxo := ethUtxo.(safe := false);
          if !allUtxoTypes && Immature !in utxoTypes {
            continue;
          }
        }
      }
      var confirmations := sel.blockCount - u.height;
      ethUtxo := ethUtxo.(confirmations := confirmations);
      if confirmations < 0 {
        return Err(Panic(NEGATIVE_CONFIRMATIONS_MESSAGE));
      }
      ethUtxo := ethUtxo.(spendable := true);
      assert Examine(u, sel) == Keep(ethUtxo);
      if ethUtxo.safe {
        minUtxosSum := minUtxosSum + u.satoshis;
      }
      utxos := utxos + [ethUtxo];
      if !queryingAll && minUtxosSum >= sel.minimumSum {
        return Ok(utxos);
      }
    }
    assert vs[|us|..] == [];
    if queryingAll {
      return Ok(utxos);
    }
    return Err(CallbackError(MINIMUM_NOT_REACHED_MESSAGE));
  }

  // ---------------------------------------------------------------------------
  // What the selection returns
  // ---------------------------------------------------------------------------

  lemma {:induction false} SafeSumAppend(a: seq<QtumUtxo>, b: seq<QtumUtxo>)
    ensures SafeSum(a + b) == SafeSum(a) + SafeSum(b)
  {
    if a == [] {
      assert a + b == b;
    } else {
      assert (a + b)[1..] == a[1..] + b;
      SafeSumAppend(a[1..], b);
    }
  }

  /** Taking one more record adds its safe amount to the sum. */
  lemma SafeSumSnoc(acc: seq<QtumUtxo>, e: QtumUtxo)
    ensures SafeSum(acc + [e]) == SafeSum(acc) + SafeAmount(e)
  {
    SafeSumAppend(acc, [e]);
    assert [e][1..] == [];
  }

  /** Every prefix of a sequence has at most its safe sum. */
  lemma SafeSumPrefix(es: seq<QtumUtxo>, j: nat)
    requires j <= |es|
    ensures SafeSum(es[..j]) <= SafeSum(es)
  {
    SafeSumAppend(es[..j], es[j..]);
    assert es[..j] + es[j..] == es;
  }

  lemma {:induction false} KeptAppend(a: seq<Verdict>, b: seq<Verdict>)
    ensures Kept(a + b) == Kept(a) + Kept(b)
  {
    if a == [] {
      assert a + b == b;
    } else {
      assert (a + b)[1..] == a[1..] + b;
      KeptAppend(a[1..], b);
    }
  }

  /** With a minimum of zero the loop runs to the end: it keeps every kept
      record, unless some entry has negative confirmations. */
  lemma {:induction false} RunAll(vs: seq<Verdict>, sum: nat, acc: seq<QtumUtxo>)
    ensures Run(vs, 0, sum, acc) ==
      if NegativeConfirmations !in vs then Ok(acc + Kept(vs)) else Err(Panic(NEGATIVE_CONFIRMATIONS_MESSAGE))
    decreases |vs|
  {
    if vs == [] {
      assert acc + [] == acc;
    } else {
      assert vs == [vs[0]] + vs[1..];
      match vs[0]
      case Dropped =>
        assert Kept(vs) == [] + Kept(vs[1..]) == Kept(vs[1..]);
        assert (NegativeConfirmations in vs) == (NegativeConfirmations in vs[1..]);
        assert Run(vs, 0, sum, acc) == Run(vs[1..], 0, sum, acc);
        RunAll(vs[1..], sum, acc);
      case NegativeConfirmations =>
      case Keep(e) =>
        RunAll(vs[1..], sum + SafeAmount(e), acc + [e]);
        assert (acc + [e]) + Kept(vs[1..]) == acc + ([e] + Kept(vs[1..]));
    }
  }

  /** Minimum sum zero: every accepted entry is returned, in the node's order,
      unless some entry has negative confirmations, which panics. */
  lemma SelectAll(us: seq<Utxo>, sel: Selection)
    requires sel.minimumSum == 0
    ensures NegativeConfirmations !in Verdicts(us, sel) ==> Selected(us, sel) == Ok(Accepted(us, sel))
    ensures NegativeConfirmations in Verdicts(us, sel) ==>
      Selected(us, sel) == Err(Panic(NEGATIVE_CONFIRMATIONS_MESSAGE))
  {
    RunAll(Verdicts(us, sel), 0, []);
    assert [] + Accepted(us, sel) == Accepted(us, sel);
  }

  /** Keeping from a non-empty prefix starts with the first verdict. */
  lemma KeptPrefixCons(vs: seq<Verdict>, k: nat)
    requires 0 < k <= |vs|
    ensures Kept(vs[..k]) == KeptOf(vs[0]) + Kept(vs[1..][..k - 1])
  {
    assert vs[..k][1..] == vs[1..][..k - 1];
  }

  /** The step case of `RunReachesMinimum`: the prefixes of the rest, with the
      first verdict put in front, are the prefixes of the whole. */
  lemma ReachStep(vs: seq<Verdict>, acc: seq<QtumUtxo>, k': nat)
    requires vs != [] && !vs[0].NegativeConfirmations?
    requires 0 < k' <= |vs| - 1 && NegativeConfirmations !in vs[1..][..k'] && vs[1..][k' - 1].Keep?
    ensures NegativeConfirmations !in vs[..k' + 1] && vs[k'].Keep?
    ensures acc + KeptOf(vs[0]) + Kept(vs[1..][..k']) == acc + Kept(vs[..k' + 1])
    ensures acc + KeptOf(vs[0]) + Kept(vs[1..][..k' - 1]) == acc + Kept(vs[..k'])
  {
    assert vs[..k' + 1] == [vs[0]] + vs[1..][..k'];
    KeptPrefixCons(vs, k' + 1);
    KeptPrefixCons(vs, k');
  }

  /** With a positive minimum, a successful loop stops at the first verdict
      with which the safe sum reaches the minimum. */
  lemma {:induction false} RunReachesMinimum(vs: seq<Verdict>, minimumSum: int, sum: nat, acc: seq<QtumUtxo>)
    returns (k: nat)
    requires minimumSum > 0 && sum == SafeSum(acc) && sum < minimumSum
    requires Run(vs, minimumSum, sum, acc).Ok?
    ensures 0 < k <= |vs| && NegativeConfirmations !in vs[..k] && vs[k - 1].Keep?
    ensures Run(vs, minimumSum, sum, acc).value == acc + Kept(vs[..k])
    ensures SafeSum(acc + Kept(vs[..k])) >= minimumSum
    ensures SafeSum(acc + Kept(vs[..k - 1])) < minimumSum
    decreases |vs|
  {
    if vs == [] {
      assert false;
    }
    var v := vs[0];
    if v.NegativeConfirmations? {
      assert false;
    }
    var acc' := acc + KeptOf(v);
    var sum' := sum + if v.Keep? then SafeAmount(v.entry) else 0;
    if v.Keep? {
      SafeSumSnoc(acc, v.entry);
    } else {
      assert acc' == acc;
    }
    if v.Keep? && sum' >= minimumSum {
      k := 1;
      KeptPrefixCons(vs, 1);
      assert vs[..1] == [v] && vs[..0] == [];
      assert acc + [] == acc;
    } else {
      assert Run(vs, minimumSum, sum, acc) == Run(vs[1..], minimumSum, sum', acc');
      var k' := RunReachesMinimum(vs[1..], minimumSum, sum', acc');
      ReachStep(vs, acc, k');
      k := k' + 1;
    }
  }

  /** Positive minimum, success: the answer is the accepted entries of a
      prefix of the node's list that ends with an accepted entry; its safe sum
      reaches the minimum and no shorter run of them does; and it is a prefix
      of everything that would have been accepted. */
  lemma SelectStopsAtMinimum(us: seq<Utxo>, sel: Selection) returns (k: nat)
    requires sel.minimumSum > 0 && Selected(us, sel).Ok?
    ensures 0 < k <= |us| && NegativeConfirmations !in Verdicts(us, sel)[..k]
    ensures Examine(us[k - 1], sel).Keep?
    ensures Selected(us, sel).value == Kept(Verdicts(us, sel)[..k])
    ensures SafeSum(Selected(us, sel).value) >= sel.minimumSum
    ensures forall j :: 0 <= j < |Selected(us, sel).value| ==>
      SafeSum(Selected(us, sel).value[..j]) < sel.minimumSum
    ensures Selected(us, sel).value <= Accepted(us, sel)
  {
    var vs := Verdicts(us, sel);
    k := RunReachesMinimum(vs, sel.minimumSum, 0, []);
    var r := Selected(us, sel).value;
    assert [] + Kept(vs[..k]) == Kept(vs[..k]);
    assert [] + Kept(vs[..k - 1]) == Kept(vs[..k - 1]);
    assert vs[..k] == vs[..k - 1] + [vs[k - 1]];
    KeptAppend(vs[..k - 1], [vs[k - 1]]);
    assert Kept([vs[k - 1]]) == KeptOf(vs[k - 1]) + Kept([]);
    assert r[..|r| - 1] == Kept(vs[..k - 1]);
    forall j | 0 <= j < |r|
      ensures SafeSum(r[..j]) < sel.minimumSum
    {
      SafeSumPrefix(r[..|r| - 1], j);
      assert r[..|r| - 1][..j] == r[..j];
    }
    KeptAppend(vs[..k], vs[k..]);
    assert vs[..k] + vs[k..] == vs;
  }

  /** With a positive minimum, the loop runs out exactly when no entry has
      negative confirmations and all safe amounts together stay below it. */
  lemma {:induction false} RunShortfall(vs: seq<Verdict>, minimumSum: int, sum: nat, acc: seq<QtumUtxo>)
    requires minimumSum > 0 && sum == SafeSum(acc) && sum < minimumSum
    ensures Run(vs, minimumSum, sum, acc) == Err(CallbackError(MINIMUM_NOT_REACHED_MESSAGE)) <==>
      NegativeConfirmations !in vs && sum + SafeSum(Kept(vs)) < minimumSum
    decreases |vs|
  {
    if vs != [] {
      assert vs == [vs[0]] + vs[1..];
      match vs[0]
      case Dropped =>
        assert Kept(vs) == [] + Kept(vs[1..]) == Kept(vs[1..]);
        assert (NegativeConfirmations in vs) == (NegativeConfirmations in vs[1..]);
        assert Run(vs, minimumSum, sum, acc) == Run(vs[1..], minimumSum, sum, acc);
        RunShortfall(vs[1..], minimumSum, sum, acc);
      case NegativeConfirmations =>
      case Keep(e) =>
        SafeSumSnoc(acc, e);
        assert ([e] + Kept(vs[1..]))[1..] == Kept(vs[1..]);
        assert SafeSum(Kept(vs)) == SafeAmount(e) + SafeSum(Kept(vs[1..]));
        if sum + SafeAmount(e) < minimumSum {
          RunShortfall(vs[1..], minimumSum, sum + SafeAmount(e), acc + [e]);
        }
    }
  }

  /** Positive minimum: the request fails with the "minimum" callback error
      if and only if no entry has negative confirmations and the safe amounts
      of all accepted entries stay below the minimum. */
  lemma SelectFailsIffMinimumUnreachable(us: seq<Utxo>, sel: Selection)
    requires sel.minimumSum > 0
    ensures Selected(us, sel) == Err(CallbackError(MINIMUM_NOT_REACHED_MESSAGE)) <==>
      NegativeConfirmations !in Verdicts(us, sel) && SafeSum(Accepted(us, sel)) < sel.minimumSum
  {
    RunShortfall(Verdicts(us, sel), sel.minimumSum, 0, []);
  }

  /** The loop fails in only two ways: a panic, when some entry has negative
      confirmations, or the "minimum" callback error with a nonzero minimum. */
  lemma {:induction false} RunErrors(vs: seq<Verdict>, minimumSum: int, sum: nat, acc: seq<QtumUtxo>)
    ensures Run(vs, minimumSum, sum, acc).Err? ==>
      || (Run(vs, minimumSum, sum, acc).error == Panic(NEGATIVE_CONFIRMATIONS_MESSAGE) && NegativeConfirmations in vs)
      || (Run(vs, minimumSum, sum, acc).error == CallbackError(MINIMUM_NOT_REACHED_MESSAGE) && minimumSum != 0)
    decreases |vs|
  {
    if vs != [] {
      assert vs == [vs[0]] + vs[1..];
      match vs[0]
      case Dropped =>
        RunErrors(vs[1..], minimumSum, sum, acc);
      case NegativeConfirmations =>
      case Keep(e) =>
        RunErrors(vs[1..], minimumSum, sum + SafeAmount(e), acc + [e]);
    }
  }

  /** The selection fails only by a panic on an entry that is not dropped and
      has negative confirmations, or by the "minimum" callback error. */
  lemma SelectErrors(us: seq<Utxo>, sel: Selection)
    ensures Selected(us, sel).Err? ==>
      || (Selected(us, sel).error == Panic(NEGATIVE_CONFIRMATIONS_MESSAGE) &&
          exists i :: 0 <= i < |us| && Examine(us[i], sel).NegativeConfirmations?)
      || (Selected(us, sel).error == CallbackError(MINIMUM_NOT_REACHED_MESSAGE) && sel.minimumSum != 0)
  {
    var vs := Verdicts(us, sel);
    RunErrors(vs, sel.minimumSum, 0, []);
    if NegativeConfirmations in vs {
      var i :| 0 <= i < |vs| && vs[i] == NegativeConfirmations;
      assert Examine(us[i], sel).NegativeConfirmations?;
    }
  }

  /** With a negative minimum the first kept record already reaches it: the
      loop answers that one record, a panic when an entry with negative
      confirmations comes first, or the "minimum" error when every entry is
      dropped. `k` is the position of the first entry that is not dropped. */
  lemma {:induction false} RunNegative(vs: seq<Verdict>, minimumSum: int, sum: nat, acc: seq<QtumUtxo>)
    returns (k: nat)
    requires minimumSum < 0
    ensures k <= |vs| && forall j :: 0 <= j < k ==> vs[j].Dropped?
    ensures k < |vs| ==> !vs[k].Dropped?
    ensures k == |vs| ==> Run(vs, minimumSum, sum, acc) == Err(CallbackError(MINIMUM_NOT_REACHED_MESSAGE))
    ensures k < |vs| && vs[k].Keep? ==> Run(vs, minimumSum, sum, acc) == Ok(acc + [vs[k].entry])
    ensures k < |vs| && vs[k].NegativeConfirmations? ==>
      Run(vs, minimumSum, sum, acc) == Err(Panic(NEGATIVE_CONFIRMATIONS_MESSAGE))
    decreases |vs|
  {
    if vs == [] {
      k := 0;
    } else if vs[0].Dropped? {
      assert Run(vs, minimumSum, sum, acc) == Run(vs[1..], minimumSum, sum, acc);
      var k' := RunNegative(vs[1..], minimumSum, sum, acc);
      k := k' + 1;
      assert forall j :: 0 < j < k ==> vs[j] == vs[1..][j - 1];
    } else {
      k := 0;
    }
  }

  /** A negative minimum: the answer is the record of the first entry that is
      not dropped, or a panic when that entry has negative confirmations, or
      the "minimum" error when every entry is dropped. */
  lemma SelectNegativeMinimum(us: seq<Utxo>, sel: Selection) returns (k: nat)
    requires sel.minimumSum < 0
    ensures k <= |us| && forall j :: 0 <= j < k ==> Examine(us[j], sel).Dropped?
    ensures k < |us| ==> !Examine(us[k], sel).Dropped?
    ensures k == |us| ==> Selected(us, sel) == Err(CallbackError(MINIMUM_NOT_REACHED_MESSAGE))
    ensures k < |us| && Examine(us[k], sel).Keep? ==> Selected(us, sel) == Ok([Examine(us[k], sel).entry])
    ensures k < |us| && Examine(us[k], sel).NegativeConfirmations? ==>
      Selected(us, sel) == Err(Panic(NEGATIVE_CONFIRMATIONS_MESSAGE))
  {
    var vs := Verdicts(us, sel);
    k := RunNegative(vs, sel.minimumSum, 0, []);
    assert forall j :: 0 <= j < k ==> vs[j] == Examine(us[j], sel);
    if k < |us| {
      assert vs[k] == Examine(us[k], sel);
      if vs[k].Keep? {
        assert [] + [vs[k].entry] == [vs[k].entry];
      }
    }
  }

  /** `idx` places the records `es` at increasing positions of `vs`, each at
      a verdict that keeps it. */
  ghost predicate Embeds(idx: seq<nat>, vs: seq<Verdict>, es: seq<QtumUtxo>)
  {
    && |idx| == |es|
    && (forall j :: 0 <= j < |idx| ==> idx[j] < |vs| && vs[idx[j]] == Keep(es[j]))
    && (forall j, k :: 0 <= j < k < |idx| ==> idx[j] < idx[k])
  }

  /** Placements in the rest of `vs`, moved one position on, are placements
      in `vs`. */
  lemma ShiftEmbeds(idx: seq<nat>, vs: seq<Verdict>, es: seq<QtumUtxo>) returns (shifted: seq<nat>)
    requires vs != [] && Embeds(idx, vs[1..], es)
    ensures Embeds(shifted, vs, es)
    ensures forall j :: 0 <= j < |shifted| ==> shifted[j] > 0
  {
    shifted := seq(|idx|, j requires 0 <= j < |idx| => idx[j] + 1);
    assert forall j :: 0 <= j < |idx| ==> vs[shifted[j]] == vs[1..][idx[j]];
  }

  /** A record kept by the first verdict, placed before later placements. */
  lemma ConsEmbeds(shifted: seq<nat>, vs: seq<Verdict>, e: QtumUtxo, es: seq<QtumUtxo>)
    requires vs != [] && vs[0] == Keep(e) && Embeds(shifted, vs, es)
    requires forall j :: 0 <= j < |shifted| ==> shifted[j] > 0
    ensures Embeds([0] + shifted, vs, [e] + es)
  {
  }

  lemma {:induction false} KeptEmbeds(vs: seq<Verdict>) returns (idx: seq<nat>)
    ensures Embeds(idx, vs, Kept(vs))
    decreases |vs|
  {
    if vs == [] {
      idx := [];
    } else {
      var tail := KeptEmbeds(vs[1..]);
      var shifted := ShiftEmbeds(tail, vs, Kept(vs[1..]));
      if vs[0].Keep? {
        ConsEmbeds(shifted, vs, vs[0].entry, Kept(vs[1..]));
        idx := [0] + shifted;
      } else {
        assert Kept(vs) == [] + Kept(vs[1..]) == Kept(vs[1..]);
        idx := shifted;
      }
    }
  }

  /** The returned records come from the node's entries in the node's order
      (a subsequence), each the record that its entry classifies to. */
  lemma SelectedIsSubsequence(us: seq<Utxo>, sel: Selection) returns (idx: seq<nat>)
    requires Selected(us, sel).Ok?
    ensures |idx| == |Selected(us, sel).value|
    ensures forall j :: 0 <= j < |idx| ==>
      idx[j] < |us| && Examine(us[idx[j]], sel) == Keep(Selected(us, sel).value[j])
    ensures forall j, k :: 0 <= j < k < |idx| ==> idx[j] < idx[k]
  {
    var vs := Verdicts(us, sel);
    if sel.minimumSum == 0 {
      SelectAll(us, sel);
      idx := KeptEmbeds(vs);
    } else if sel.minimumSum < 0 {
      var k := SelectNegativeMinimum(us, sel);
      assert k < |us| && Examine(us[k], sel).Keep?;
      idx := [k];
    } else {
      var k := SelectStopsAtMinimum(us, sel);
      idx := KeptEmbeds(vs[..k]);
      assert forall j :: 0 <= j < |idx| ==> vs[..k][idx[j]] == vs[idx[j]];
    }
  }

  /** Every returned record is spendable, has `blockCount - height >= 0`
      confirmations, is unsafe if a mempool input spends its txid, and in
      filtered mode has one of the requested types. */
  lemma SelectedEntriesClassified(us: seq<Utxo>, sel: Selection)
    requires Selected(us, sel).Ok?
    ensures forall e :: e in Selected(us, sel).value ==>
      exists u :: u in us && Examine(u, sel) == Keep(e)
    ensures forall e :: e in Selected(us, sel).value ==>
      e.spendable && e.confirmations == sel.blockCount - e.height >= 0
    ensures forall e :: e in Selected(us, sel).value ==> e.txid in sel.inFlight ==> !e.safe
    ensures !AllTypesRequested(sel.types) ==>
      forall e :: e in Selected(us, sel).value ==> e.utxoType in sel.types
  {
    var r := Selected(us, sel).value;
    var idx := SelectedIsSubsequence(us, sel);
    forall e | e in r
      ensures exists u :: u in us && Examine(u, sel) == Keep(e)
    {
      var j :| 0 <= j < |r| && r[j] == e;
      assert us[idx[j]] in us;
    }
  }

  /** The maturity threshold is inclusive: a stake output of an unspent
      transaction is unsafe while the block count equals height plus maturity
      depth, and safe, with depth + 1 confirmations, one block later. */
  lemma MaturityBoundary(u: Utxo, sel: Selection)
    requires u.isStake && sel.blockCount == u.height + sel.matureDepth
    requires u.txid !in sel.inFlight && AllTypesRequested(sel.types)
    ensures Examine(u, sel).Keep? && !Examine(u, sel).entry.safe
    ensures var later := sel.(blockCount := sel.blockCount + 1);
      && Examine(u, later).Keep? && Examine(u, later).entry.safe
      && Examine(u, later).entry.confirmations == sel.matureDepth + 1
  {
  }

  /** A plain, mature, unspent entry of the given amount, confirmed at height 1. */
  function PlainUtxo(txid: string, satoshis: nat): Utxo
  {
    Utxo("qUSaddr", txid, 0, satoshis, "76a914", 1, false, false)
  }

  /** Greedy selection over safe amounts 3, 5 and 2: a minimum of 7 returns
      the first two entries (sum 8) without the third, and a minimum of 11
      fails with the "minimum" callback error and no records. */
  lemma GreedyExample()
    ensures var us := [PlainUtxo("a", 3), PlainUtxo("b", 5), PlainUtxo("c", 2)];
      var sel := Selection(10, 2000, [], 7, [], s => Kind("pubkeyhash"));
      && Selected(us, sel).Ok?
      && |Selected(us, sel).value| == 2
      && Selected(us, sel).value[0].txid == "a" && Selected(us, sel).value[1].txid == "b"
      && SafeSum(Selected(us, sel).value) == 8
    ensures var us := [PlainUtxo("a", 3), PlainUtxo("b", 5), PlainUtxo("c", 2)];
      var sel := Selection(10, 2000, [], 11, [], s => Kind("pubkeyhash"));
      Selected(us, sel) == Err(CallbackError(MINIMUM_NOT_REACHED_MESSAGE))
  {
  }

  // ---------------------------------------------------------------------------
  // The whole handler
  // ---------------------------------------------------------------------------

  function SelectionOf(node: UtxoNode, params: GetUtxosRequest, count: nat, inFlight: seq<string>): Selection
  {
    Selection(count, node.matureBlockHeight, inFlight, params.minSumAmount, params.types, node.classify)
  }

  /** The specification of `request` after the address conversion: every node
      failure is a callback error carrying the node's message. */
  function Respond(node: UtxoNode, params: GetUtxosRequest): (r: Result<seq<QtumUtxo>, RpcError>)
    ensures node.addressUtxos.Err? ==> r == Err(CallbackError(node.addressUtxos.error))
    ensures node.addressUtxos.Ok? && node.blockCount.Err? ==> r == Err(CallbackError(node.blockCount.error))
    ensures node.addressUtxos.Ok? && node.blockCount.Ok? && node.rawMempool.Err? ==>
      r == Err(CallbackError(node.rawMempool.error))
    ensures
      (node.addressUtxos.Ok? && node.blockCount.Ok? && node.rawMempool.Ok? &&
       MempoolInputs(node.rawMempool.value, node.rawTransaction).Err?) ==>
      r == Err(CallbackError(MempoolInputs(node.rawMempool.value, node.rawTransaction).error))
  {
    match node.addressUtxos
    case Err(m) => Err(CallbackError(m))
    case Ok(utxos) =>
      match node.blockCount
      case Err(m) => Err(CallbackError(m))
      case Ok(count) =>
        match node.rawMempool
        case Err(m) => Err(CallbackError(m))
        case Ok(hashes) =>
          match MempoolInputs(hashes, node.rawTransaction)
          case Err(m) => Err(CallbackError(m))
          case Ok(inFlight) => Selected(utxos, SelectionOf(node, params, count, inFlight))
  }

  /** `request` from the UTXO query on. */
  method Request(node: UtxoNode, params: GetUtxosRequest) returns (r: Result<seq<QtumUtxo>, RpcError>)
    ensures r == Respond(node, params)
  {
    var resp := node.addressUtxos;
    if resp.Err? {
      return Err(CallbackError(resp.error));
    }
    var blockCount := node.blockCount;
    if blockCount.Err? {
      return Err(CallbackError(blockCount.error));
    }
    var rawMempool := node.rawMempool;
    if rawMempool.Err? {
      return Err(CallbackError(rawMempool.error));
    }
    var mempoolUtxoHashes := CollectMempoolInputs(rawMempool.value, node.rawTransaction);
    if mempoolUtxoHashes.Err? {
      return Err(CallbackError(mempoolUtxoHashes.error));
    }
    var sel := SelectionOf(node, params, blockCount.value, mempoolUtxoHashes.value);
    r := SelectUtxos(resp.value, sel);
  }

  /** An entry whose txid is spent by an input of some mempool transaction
      is returned as unsafe, whatever output index that input names. */
  lemma MempoolSpendsAreUnsafe(node: UtxoNode, params: GetUtxosRequest, e: QtumUtxo, h: string, v: Vin)
    requires Respond(node, params).Ok? && e in Respond(node, params).value
    requires node.rawMempool.Ok? && h in node.rawMempool.value
    requires node.rawTransaction(h).Ok? && v in node.rawTransaction(h).value && v.id == e.txid
    ensures !e.safe
  {
    var inFlight := MempoolInputs(node.rawMempool.value, node.rawTransaction);
    assert SpentBy(node.rawMempool.value, node.rawTransaction, e.txid);
    var sel := SelectionOf(node, params, node.blockCount.value, inFlight.value);
    SelectedEntriesClassified(node.addressUtxos.value, sel);
  }
}
