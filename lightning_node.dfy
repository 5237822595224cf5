/**
 * The Lightning node supervisor: the one-shot start gate over its scoped
 * services, the channel-monitor promise filled by state recovery, the
 * persisted engine blobs, the payment ledger, and the pass-through calls to
 * the on-chain wallet and the server.
 */
module LightningNode {
  import opened Wrappers
  import opened Hex
  import opened Configs
  import opened StartGate
  import opened PaymentLedger

  /** A persisted channel; `data` is the opaque monitor blob the engine produced. */
  datatype ChannelRecord = ChannelRecord(id: string, aliases: seq<string>, data: seq<byte>)

  /** A channel monitor rebuilt by the engine; opaque here. */
  datatype ChannelMonitor = ChannelMonitor(state: seq<byte>)

  /** A single-assignment completion source. */
  datatype Promise<T> = Unresolved | Resolved(value: T)

  /** The exceptions the modelled code can raise. */
  datatype NodeError =
    | InvalidOperation  // SetResult on a promise that is already resolved
    | NullReference     // the on-chain wallet has no configuration
    | KeyNotFound       // the wallet configuration lacks the lightning-scripts derivation
    | RecoveryFailed    // the engine could not rebuild the monitors from the stored blobs

  /** The request sent to the server to watch scripts: the derivation purpose and the scripts as hex. */
  datatype TrackRequest = TrackRequest(purpose: DerivationPurpose, hexScripts: seq<string>)

  const ChannelManagerKey := "ChannelManager"
  const NetworkGraphKey := "NetworkGraph"
  const ScoreKey := "Score"

  /** TaskCompletionSource.SetResult: resolves once, throws on any later call. */
  function SetResult<T>(p: Promise<T>, v: T): (r: Result<Promise<T>, NodeError>)
    ensures r.Ok? <==> p.Unresolved?
    ensures r.Ok? ==> r.value == Resolved(v)
    ensures r.Err? ==> r.error == InvalidOperation
  {
    if p.Unresolved? then Ok(Resolved(v)) else Err(InvalidOperation)
  }

  /** The monitor blobs of the persisted channels, in table order. */
  function ChannelBlobs(channels: seq<ChannelRecord>): (blobs: seq<seq<byte>>)
    ensures |blobs| == |channels|
    ensures forall i :: 0 <= i < |channels| ==> blobs[i] == channels[i].data
  {
    seq(|channels|, i requires 0 <= i < |channels| => channels[i].data)
  }

  /** The scripts as hex: every text decodes to the script it was made from, at the same position. */
  function HexAll(scripts: seq<seq<byte>>): (hexes: seq<string>)
    ensures |hexes| == |scripts|
    ensures forall i :: 0 <= i < |scripts| ==> FromHex(hexes[i]) == Some(scripts[i])
  {
    var hexes := seq(|scripts|, i requires 0 <= i < |scripts| => ToHex(scripts[i]));
    forall i | 0 <= i < |scripts|
      ensures FromHex(hexes[i]) == Some(scripts[i])
    {
      FromHexToHex(scripts[i]);
    }
    hexes
  }

  /**
   * TrackScripts: the request sent to the server. Reading the wallet's
   * lightning-scripts derivation throws when the wallet configuration is null
   * or lacks that derivation; otherwise the scripts go out as hex, in order,
   * under the lightning-scripts purpose.
   */
  function TrackScripts(wallet: Option<WalletConfig>, scripts: seq<seq<byte>>): (r: Result<TrackRequest, NodeError>)
    ensures wallet.None? ==> r == Err(NullReference)
    ensures wallet.Some? && LightningScripts !in wallet.value.derivations ==> r == Err(KeyNotFound)
    ensures r.Ok? <==> wallet.Some? && LightningScripts in wallet.value.derivations
    ensures r.Ok? ==> r.value.purpose == LightningScripts && |r.value.hexScripts| == |scripts|
    ensures r.Ok? ==> forall i :: 0 <= i < |scripts| ==> FromHex(r.value.hexScripts[i]) == Some(scripts[i])
  {
    if wallet.None? then Err(NullReference)
    else if LightningScripts !in wallet.value.derivations then Err(KeyNotFound)
    else Ok(TrackRequest(LightningScripts, HexAll(scripts)))
  }

  class LdkNode {
    /** The scoped hosted services, in the container's (stable) enumeration order. */
    const services: seq<ServiceId>
    /** `_started` */
    var started: Gate
    /** The start and stop calls made on the services, in order. */
    var serviceEvents: seq<ServiceEvent>
    /** `icm`: the initial channel monitors. */
    var icm: Promise<seq<ChannelMonitor>>
    /** The configuration store's entries this node reads and writes. */
    var settings: map<string, seq<byte>>
    /** The persisted channels. */
    var channels: seq<ChannelRecord>
    /** The payments table. */
    var payments: Ledger
    /** How many times changes were saved to the database. */
    var saveCount: nat
    /** How many times the engine was asked to rebuild the monitors from the channel blobs. */
    var recoveryRuns: nat

    ghost predicate Valid()
      reads this
    {
      WellKeyed(payments)
    }

    constructor (services: seq<ServiceId>, settings: map<string, seq<byte>>,
                 channels: seq<ChannelRecord>, payments: Ledger)
      requires WellKeyed(payments)
      ensures Valid()
      ensures this.services == services && this.settings == settings
      ensures this.channels == channels && this.payments == payments
      ensures started == NotCreated && serviceEvents == [] && icm == Unresolved && saveCount == 0 && recoveryRuns == 0
    {
      this.services := services;
      this.settings := settings;
      this.channels := channels;
      this.payments := payments;
      started := NotCreated;
      serviceEvents := [];
      icm := Unresolved;
      saveCount := 0;
      recoveryRuns := 0;
    }

    function View(): NodeView
      reads this
    {
      NodeView(started, serviceEvents)
    }

    /**
     * StartAsync. Under the lock the caller learns whether `_started` existed and
     * creates it if not; a caller that found it only waits on it; the creator
     * starts each service in order and completes the signal after the last one.
     */
    method StartAsync(failing: set<ServiceId>) returns (outcome: StartOutcome)
      modifies this`started, this`serviceEvents
      ensures (View(), outcome) == StartStep(old(View()), services, failing)
    {
      var existed := started != NotCreated;
      if started == NotCreated {
        started := Created;
      }
      if existed {
        outcome := if started == Completed then Joined else Awaiting;
        return;
      }
      var i := 0;
      while i < |services|
        invariant 0 <= i <= |services|
        invariant started == Created
        invariant forall j :: 0 <= j < i ==> services[j] !in failing
        invariant serviceEvents == old(serviceEvents) + Starts(services[..i])
      {
        assert Starts(services[..i + 1]) == Starts(services[..i]) + [StartCalled(services[i])];
        serviceEvents := serviceEvents + [StartCalled(services[i])];
        if services[i] in failing {
          // the exception propagates; `_started` is left incomplete
          assert FirstFailure(services, failing) == i;
          assert serviceEvents == old(serviceEvents) + Starts(services[..i + 1]);
          assert old(View()).gate == NotCreated;
          outcome := Threw(services[i]);
          return;
        }
        i := i + 1;
      }
      assert services[..i] == services;
      started := Completed;
      outcome := RanAll;
    }

    /** StopAsync: nothing if never started; otherwise stop each service in order. `_started` is kept. */
    method StopAsync(failing: set<ServiceId>) returns (outcome: StopOutcome)
      modifies this`serviceEvents
      ensures (View(), outcome) == StopStep(old(View()), services, failing)
    {
      var existed := started != NotCreated;
      if !existed {
        outcome := NothingToStop;
        return;
      }
      var i := 0;
      while i < |services|
        invariant 0 <= i <= |services|
        invariant forall j :: 0 <= j < i ==> services[j] !in failing
        invariant serviceEvents == old(serviceEvents) + Stops(services[..i])
      {
        assert Stops(services[..i + 1]) == Stops(services[..i]) + [StopCalled(services[i])];
        serviceEvents := serviceEvents + [StopCalled(services[i])];
        if services[i] in failing {
          assert FirstFailure(services, failing) == i;
          assert serviceEvents == old(serviceEvents) + Stops(services[..i + 1]);
          outcome := StopThrew(services[i]);
          return;
        }
        i := i + 1;
      }
      assert services[..i] == services;
      outcome := StoppedAll;
    }

    /** DisposeAsync (and Dispose) stop the node. */
    method DisposeAsync(failing: set<ServiceId>) returns (outcome: StopOutcome)
      modifies this`serviceEvents
      ensures (View(), outcome) == StopStep(old(View()), services, failing)
    {
      outcome := StopAsync(failing);
    }

    /** The public GetInitialChannelMonitors: the monitors once recovery resolved `icm`; None while a caller would still wait. */
    function InitialChannelMonitors(): (r: Option<seq<ChannelMonitor>>)
      reads this
      ensures r.Some? <==> icm.Resolved?
      ensures r.Some? ==> r.value == icm.value
    {
      if icm.Resolved? then Some(icm.value) else None
    }

    /** Payment: upsert the row under its (hash, direction) key. */
    method Payment(p: LightningPayment)
      requires Valid()
      modifies this`payments
      ensures Valid()
      ensures payments == Upsert(old(payments), p)
    {
      payments := payments[KeyOf(p) := p];
    }

    /**
     * PaymentUpdate: nothing happens when no row matches; otherwise the row is
     * reconciled with the notification and the changes are saved (also when the
     * notification is a stale failure that changes nothing).
     */
    method PaymentUpdate(paymentHash: string, inbound: bool, paymentId: string, failure: bool, preimage: Option<string>)
      requires Valid()
      modifies this`payments, this`saveCount
      ensures Valid()
      ensures Find(old(payments), paymentHash, inbound, paymentId).None? ==>
                payments == old(payments) && saveCount == old(saveCount)
      ensures Find(old(payments), paymentHash, inbound, paymentId).Some? ==>
                && payments == old(payments)[PaymentKey(paymentHash, inbound) :=
                     Reconcile(old(payments)[PaymentKey(paymentHash, inbound)], Notification(failure, preimage))]
                && saveCount == old(saveCount) + 1
      ensures (forall k :: k in old(payments) ==> !Matches(old(payments)[k], paymentHash, inbound, paymentId)) ==>
                payments == old(payments) && saveCount == old(saveCount)
    {
      FindIsQuery(payments, paymentHash, inbound, paymentId);
      var payment := Find(payments, paymentHash, inbound, paymentId);
      if payment.Some? {
        var row := payment.value;
        if failure && row.status == Complete {
          // a failure after success is stale: ignored
        } else {
          row := row.(status := if failure then Failed else Complete);
          row := row.(preimage := if row.preimage.Some? then row.preimage else preimage);
        }
        payments := payments[PaymentKey(paymentHash, inbound) := row];
        saveCount := saveCount + 1;
      }
    }

    /**
     * The private GetInitialChannelMonitors: read every channel's blob, rebuild the
     * monitors with the engine's capabilities (`recover`, None when the engine
     * throws), then resolve `icm`, which throws if it was already resolved.
     */
    method RecoverChannelMonitors(recover: seq<seq<byte>> -> Option<seq<ChannelMonitor>>)
      returns (r: Result<seq<ChannelMonitor>, NodeError>)
      modifies this`icm, this`recoveryRuns
      ensures recoveryRuns == old(recoveryRuns) + 1
      ensures recover(ChannelBlobs(channels)).None? ==> r == Err(RecoveryFailed) && icm == old(icm)
      ensures recover(ChannelBlobs(channels)).Some? && old(icm).Unresolved? ==>
                && r == Ok(recover(ChannelBlobs(channels)).value)
                && icm == Resolved(recover(ChannelBlobs(channels)).value)
      ensures recover(ChannelBlobs(channels)).Some? && old(icm).Resolved? ==>
                r == Err(InvalidOperation) && icm == old(icm)
    {
      var data := ChannelBlobs(channels);
      var recovered := recover(data);
      recoveryRuns := recoveryRuns + 1;
      if recovered.None? {
        r := Err(RecoveryFailed);
        return;
      }
      var monitors := recovered.value;
      var resolved := SetResult(icm, monitors);
      if resolved.Err? {
        r := Err(resolved.error);
        return;
      }
      icm := resolved.value;
      r := Ok(monitors);
    }

    /** GetRawChannelManager: the stored blob, with an absent one coalesced to the empty array; never null. */
    function GetRawChannelManager(): (r: Option<seq<byte>>)
      reads this
      ensures r.Some?
      ensures ChannelManagerKey in settings ==> r.value == settings[ChannelManagerKey]
      ensures ChannelManagerKey !in settings ==> r.value == []
    {
      Some(if ChannelManagerKey in settings then settings[ChannelManagerKey] else [])
    }

    /** UpdateChannelManager: store the engine's serialized state under its key. */
    method UpdateChannelManager(serialized: seq<byte>)
      modifies this`settings
      ensures settings == old(settings)[ChannelManagerKey := serialized]
    {
      settings := settings[ChannelManagerKey := serialized];
    }

    method UpdateNetworkGraph(serialized: seq<byte>)
      modifies this`settings
      ensures settings == old(settings)[NetworkGraphKey := serialized]
    {
      settings := settings[NetworkGraphKey := serialized];
    }

    method UpdateScore(serialized: seq<byte>)
      modifies this`settings
      ensures settings == old(settings)[ScoreKey := serialized]
    {
      settings := settings[ScoreKey := serialized];
    }

    /**
     * GetSerializedChannelManager. The raw state is never null, so the first-run
     * branch (resolve `icm` with no monitors, return null) cannot run: every call
     * goes on to recovery, and once a call has resolved `icm` any later one throws.
     */
    method GetSerializedChannelManager(recover: seq<seq<byte>> -> Option<seq<ChannelMonitor>>)
      returns (r: Result<Option<(seq<byte>, seq<ChannelMonitor>)>, NodeError>)
      modifies this`icm, this`recoveryRuns
      ensures recoveryRuns == old(recoveryRuns) + 1
      ensures recover(ChannelBlobs(channels)).None? ==> r == Err(RecoveryFailed) && icm == old(icm)
      ensures recover(ChannelBlobs(channels)).Some? && old(icm).Unresolved? ==>
                && r == Ok(Some((GetRawChannelManager().value, recover(ChannelBlobs(channels)).value)))
                && icm == Resolved(recover(ChannelBlobs(channels)).value)
      ensures recover(ChannelBlobs(channels)).Some? && old(icm).Resolved? ==>
                r == Err(InvalidOperation) && icm == old(icm)
    {
      var data := GetRawChannelManager();
      if data.None? {
        // the first-run path of the source is dead code
        assert false;
      }
      var monitors := RecoverChannelMonitors(recover);
      if monitors.Err? {
        r := Err(monitors.error);
        return;
      }
      r := Ok(Some((data.value, monitors.value)));
    }

    /** DeriveScript: a change script from the on-chain wallet's native-segwit derivation. */
    method DeriveScript(derive: DerivationPurpose -> seq<byte>) returns (script: seq<byte>)
      ensures script == derive(NativeSegwit)
    {
      script := derive(NativeSegwit);
    }
  }

  /**
   * A node resolves its monitors once: after a first GetSerializedChannelManager
   * that recovers them, a second one runs the engine again and then throws
   * (InvalidOperation, or the engine's own failure), leaving `icm` as the first call set it.
   */
  method RecoveryResolvesOnce(node: LdkNode, recover: seq<seq<byte>> -> Option<seq<ChannelMonitor>>,
                              later: seq<seq<byte>> -> Option<seq<ChannelMonitor>>)
    returns (first: Result<Option<(seq<byte>, seq<ChannelMonitor>)>, NodeError>,
             second: Result<Option<(seq<byte>, seq<ChannelMonitor>)>, NodeError>)
    requires node.icm.Unresolved?
    modifies node
    ensures node.recoveryRuns == old(node.recoveryRuns) + 2
    ensures first.Ok? <==> recover(ChannelBlobs(node.channels)).Some?
    ensures first.Ok? ==> first.value.Some? && second.Err?
                          && node.InitialChannelMonitors() == Some(first.value.value.1)
    ensures first.Ok? && later(ChannelBlobs(node.channels)).Some? ==> second == Err(InvalidOperation)
  {
    first := node.GetSerializedChannelManager(recover);
    second := node.GetSerializedChannelManager(later);
  }
}
