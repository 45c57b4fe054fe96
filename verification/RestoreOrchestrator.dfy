/** The orchestrator as the program has it: steps that read the stores and raise, and one that writes. */
module RestoreOrchestrators {
  import opened Wrappers
  import opened MetadataStores
  import opened RestoreModel
  import opened RestoreMeaning

  /** The three backends wired together; the restore writes only the metadata store. */
  class StorageRegistry {
    const metadata: EtcdMetadataStore
    var checkpoints: map<string, Bytes>
    var events: seq<int>

    constructor (metadata: EtcdMetadataStore, checkpoints: map<string, Bytes>, events: seq<int>)
      ensures this.metadata == metadata && this.checkpoints == checkpoints && this.events == events
    {
      this.metadata := metadata;
      this.checkpoints := checkpoints;
      this.events := events;
    }

    function Snapshot(): World
      reads this, metadata
    {
      World(metadata.data, checkpoints, events)
    }
  }

  class RestoreOrchestrator {
    const config: Config
    const registry: StorageRegistry

    constructor (config: Config, registry: StorageRegistry)
      ensures this.config == config && this.registry == registry
    {
      this.config := config;
      this.registry := registry;
    }

    predicate Wired()
      reads registry
    {
      registry.metadata.ns == config.ns
    }

    method LoadManifestStep(id: string) returns (r: Result<Manifest>)
      requires Wired()
      ensures r == LoadManifest(config, registry.Snapshot(), id)
      ensures var data, place := registry.metadata.data, ManifestPlace(config, id);
              && (forall m :: r == Ok(m) <==>
                   place in data && config.decode(data[place]) == Some(m) && m.manifestHash != "")
              && (r == Err(ManifestNotFound) <==> place !in data)
              && (r == Err(ManifestUnreadable) <==> place in data && config.decode(data[place]) == None)
    {
      KeysArePlaces(config, id);
      var raw := registry.metadata.Get("manifests/" + id);
      if raw == None {
        return Err(ManifestNotFound);
      }
      var manifest := config.decode(raw.value);
      if manifest == None {
        return Err(ManifestUnreadable);
      }
      if manifest.value.manifestHash == "" {
        return Err(ManifestUnsigned);
      }
      return Ok(manifest.value);
    }

    method VerifyAttestationStep(m: Manifest) returns (r: Result<()>)
      requires Wired()
      ensures r == VerifyAttestation(config, registry.Snapshot(), m)
      ensures var data, b := registry.metadata.data, m.body;
              && (r.Ok? <==>
                   && (!b.restorePath.OtherPath? ==> !Blank(b.attestationRef))
                   && (!Blank(b.attestationRef) ==> AttestationPlace(config, b.attestationRef.value) in data))
              && (r == Err(AttestationRequired) <==> !b.restorePath.OtherPath? && Blank(b.attestationRef))
    {
      AttestationPassesIff(config, registry.Snapshot(), m);
      var ref := m.body.attestationRef;
      if NeedsAttestation(m.body.restorePath) && !Present(ref) {
        return Err(AttestationRequired);
      }
      if Present(ref) {
        var raw := registry.metadata.Get("attestations/" + ref.value);
        if raw == None {
          return Err(AttestationNotFound);
        }
      }
      return Ok(());
    }

    method PromoteTrustStep(m: Manifest) returns (r: Result<TrustClass>)
      requires Wired()
      modifies registry.metadata
      ensures (registry.Snapshot(), r) == PromoteTrust(config, old(registry.Snapshot()), m)
      ensures r.Ok? <==> Claimable(config, old(registry.metadata.data), m.body)
      ensures r.Ok? ==>
                && RightClass(m.body, r.value)
                && registry.metadata.data == WithTrust(config, old(registry.metadata.data), m.body.nodeId, r.value)
      ensures r.Err? ==> registry.metadata.data == old(registry.metadata.data)
    {
      MayPromoteIff(config, registry.Snapshot(), m);
      KeysArePlaces(config, m.body.nodeId);
      var trustKey := "nodes/" + m.body.nodeId + "/trust";
      var granted := Granted(m.body);
      var newValue := ClassBytes(config, granted);
      if Present(m.body.splitBrainToken) {
        var expected := config.encode(m.body.splitBrainToken.value);
        var swapped := registry.metadata.CompareAndSwap(trustKey, expected, newValue);
        if !swapped {
          return Err(SplitBrainLost);
        }
      } else {
        registry.metadata.Put(trustKey, newValue);
      }
      return Ok(granted);
    }

    /** The whole sequence, stopping at the first step that raises. */
    method RestoreNode(id: string) returns (r: Result<RestoreResult>)
      requires Wired()
      modifies registry.metadata
      ensures (registry.Snapshot(), r) == Restore(config, old(registry.Snapshot()), id)
      ensures r.Ok? ==>
                && (var w := old(registry.Snapshot());
                    exists x :: Warranted(config, id, x, w, w, w, w) && Reports(id, x, r.value))
                && registry.metadata.data ==
                   WithTrust(config, old(registry.metadata.data), r.value.nodeId, r.value.grantedTrustClass)
      ensures r.Err? ==>
                && FirstFault(config, old(registry.Snapshot()), id, r.error)
                && registry.metadata.data == old(registry.metadata.data)
    {
      hide Warranted, Reports, Fault, WithTrust, Claimable, RightClass;
      RestoreSucceedsIff(config, registry.Snapshot(), id);
      RaisedIsFirst(config, registry.Snapshot(), id);
      var manifest :- LoadManifestStep(id);
      var _ :- VerifyHashes(config, manifest);
      var _ :- VerifyAttestationStep(manifest);
      var payload :- FetchPayload(config, registry.Snapshot(), manifest);
      var replayed :- ReplayEvents(config, registry.Snapshot(), manifest);
      var _ :- CheckCriu(manifest);
      var granted :- PromoteTrustStep(manifest);
      return Ok(RestoreResult(id, manifest.body.nodeId, manifest.body.restorePath, replayed, granted, payload));
    }
  }
}
