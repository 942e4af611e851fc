/** The clusters of the reconciler's configuration (internal/reconcile/config.go). */
module ReconcileConfig {
  import opened Options
  import opened AliasPaths
  import opened Sorting
  import Reconciling
  import W = Wanted

  /** A cluster as configured. */
  datatype Raw = Raw(name: string, apiURL: string, tokenFile: string, intermediates: seq<string>)

  const HTTPS: string := "https://"

  /** The clusters read so far own these fingerprints. */
  ghost predicate Owners(owner: map<string, string>, clusters: seq<W.Cluster>) {
    && (forall k :: 0 <= k < |clusters| ==> forall fp :: fp in clusters[k].fingerprints ==>
          fp in owner && owner[fp] == clusters[k].name)
    && (forall fp :: fp in owner ==>
          exists k :: 0 <= k < |clusters| && fp in clusters[k].fingerprints && owner[fp] == clusters[k].name)
  }

  /** The cluster's own settings are acceptable. */
  ghost predicate Acceptable(c: Raw, read: string -> Option<string>) {
    && ValidSegment(c.name) && HTTPS <= c.apiURL && c.tokenFile != "" && c.intermediates != []
    && forall f :: f in c.intermediates ==> read(f).Some?
  }

  /** No fingerprint is configured for both. */
  ghost predicate Apart(c: Raw, d: Raw, read: string -> Option<string>) {
    forall f, g :: f in c.intermediates && g in d.intermediates && read(f).Some? ==> read(f) != read(g)
  }

  /** The whole list is. */
  ghost predicate AllAcceptable(raw: seq<Raw>, read: string -> Option<string>) {
    && (forall i :: 0 <= i < |raw| ==> Acceptable(raw[i], read))
    && (forall i, j :: 0 <= i < j < |raw| ==> raw[i].name != raw[j].name && Apart(raw[i], raw[j], read))
  }

  /** The cluster as loaded: its name, and its intermediates' fingerprints, each
      once. */
  ghost predicate LoadedAs(c: Raw, read: string -> Option<string>, cluster: W.Cluster) {
    && cluster.name == c.name && Distinct(cluster.fingerprints)
    && forall fp :: fp in cluster.fingerprints <==> exists f :: f in c.intermediates && read(f) == Some(fp)
  }

  /** The cluster owns these fingerprints besides. */
  ghost predicate Owned(name: string, owner: map<string, string>, fingerprints: seq<string>,
                        owner': map<string, string>)
  {
    && (forall fp :: fp in owner' <==> fp in owner || fp in fingerprints)
    && (forall fp :: fp in owner' ==> owner'[fp] == if fp in fingerprints then name else owner[fp])
  }

  /** One file for each fingerprint. */
  ghost predicate Kept(files: seq<string>, read: string -> Option<string>, fingerprints: seq<string>, kept: seq<string>)
  {
    |kept| == |fingerprints|
    && forall j :: 0 <= j < |kept| ==> kept[j] in files && read(kept[j]) == Some(fingerprints[j])
  }

  /** What reading these files leaves: every fingerprint once, with its first
      file, and the cluster as its owner. */
  ghost predicate Reads(files: seq<string>, name: string, owner: map<string, string>, read: string -> Option<string>,
                        fingerprints: seq<string>, kept: seq<string>, owner': map<string, string>)
  {
    && (forall f :: f in files ==> read(f).Some? && (read(f).value in owner ==> owner[read(f).value] == name))
    && (forall fp :: fp in fingerprints <==> exists f :: f in files && read(f) == Some(fp))
    && Distinct(fingerprints)
    && Owned(name, owner, fingerprints, owner')
    && Kept(files, read, fingerprints, kept)
  }

  lemma OwnedOneMore(name: string, owner: map<string, string>, fingerprints: seq<string>, owner': map<string, string>,
                     fp: string)
    requires Owned(name, owner, fingerprints, owner')
    ensures Owned(name, owner, fingerprints + [fp], owner'[fp := name])
  {
    assert forall x :: x in fingerprints + [fp] <==> x in fingerprints || x == fp;
  }

  lemma KeptMore(files: seq<string>, read: string -> Option<string>, fingerprints: seq<string>, kept: seq<string>,
                 f: string)
    requires Kept(files, read, fingerprints, kept) && read(f).Some?
    ensures Kept(files + [f], read, fingerprints + [read(f).value], kept + [f])
  {
  }

  lemma ReadsNone(name: string, owner: map<string, string>, read: string -> Option<string>)
    ensures Reads([], name, owner, read, [], [], owner)
  {
  }

  /** A file seen before, or with a fingerprint seen before. */
  lemma ReadsAgain(files: seq<string>, f: string, name: string, owner: map<string, string>,
                   read: string -> Option<string>, fingerprints: seq<string>, kept: seq<string>,
                   owner': map<string, string>)
    requires Reads(files, name, owner, read, fingerprints, kept, owner')
    requires f in files || (read(f).Some? && read(f).value in fingerprints)
    ensures Reads(files + [f], name, owner, read, fingerprints, kept, owner')
  {
  }

  lemma ReadsMore(files: seq<string>, f: string, name: string, owner: map<string, string>,
                  read: string -> Option<string>, fingerprints: seq<string>, kept: seq<string>,
                  owner': map<string, string>)
    requires Reads(files, name, owner, read, fingerprints, kept, owner')
    requires read(f).Some? && read(f).value !in fingerprints
             && (read(f).value in owner' ==> owner'[read(f).value] == name)
    ensures Reads(files + [f], name, owner, read, fingerprints + [read(f).value], kept + [f],
                  owner'[read(f).value := name])
  {
    hide Owned, Kept;
    MoreRead(files, f, read, fingerprints);
    OwnerBefore(name, owner, fingerprints, owner', read(f).value);
    OwnedOneMore(name, owner, fingerprints, owner', read(f).value);
    KeptMore(files, read, fingerprints, kept, f);
    forall g | g in files + [f] ensures read(g).Some? && (read(g).value in owner ==> owner[read(g).value] == name) {
    }
  }

  lemma OwnerBefore(name: string, owner: map<string, string>, fingerprints: seq<string>, owner': map<string, string>,
                    fp: string)
    requires Owned(name, owner, fingerprints, owner') && fp !in fingerprints
    ensures fp in owner ==> fp in owner' && owner'[fp] == owner[fp]
  {
  }

  lemma MoreRead(files: seq<string>, f: string, read: string -> Option<string>, fingerprints: seq<string>)
    requires read(f).Some? && forall fp :: fp in fingerprints <==> exists g :: g in files && read(g) == Some(fp)
    ensures forall fp :: fp in fingerprints + [read(f).value] <==> exists g :: g in files + [f] && read(g) == Some(fp)
  {
    var more := fingerprints + [read(f).value];
    forall fp ensures fp in more <==> exists g :: g in files + [f] && read(g) == Some(fp) {
      if fp in fingerprints {
        var g :| g in files && read(g) == Some(fp);
        assert g in files + [f];
      }
      if fp == read(f).value {
        assert f in files + [f] && more[|fingerprints|] == fp;
      }
    }
  }

  /** The files of one cluster: each read once, each fingerprint kept once, none
      that another cluster owns. */
  method ReadFingerprints(c: Raw, owner: map<string, string>, read: string -> Option<string>)
    returns (ok: bool, fingerprints: seq<string>, files: seq<string>, owner': map<string, string>)
    ensures ok <==> forall f :: f in c.intermediates ==>
              read(f).Some? && (read(f).value in owner ==> owner[read(f).value] == c.name)
    ensures ok ==> Reads(c.intermediates, c.name, owner, read, fingerprints, files, owner')
  {
    hide Reads;
    var seenFile: set<string>, seenFP: set<string> := {}, {};
    fingerprints, files, owner' := [], [], owner;
    ReadsNone(c.name, owner, read);
    for i := 0 to |c.intermediates|
      invariant forall f :: f in seenFile <==> f in c.intermediates[..i]
      invariant forall fp :: fp in seenFP <==> fp in fingerprints
      invariant Reads(c.intermediates[..i], c.name, owner, read, fingerprints, files, owner')
    {
      var f := c.intermediates[i];
      assert c.intermediates[..i + 1] == c.intermediates[..i] + [f];
      if f in seenFile {
        ReadsAgain(c.intermediates[..i], f, c.name, owner, read, fingerprints, files, owner');
        continue;
      }
      seenFile := seenFile + {f};
      var fp := read(f);
      if fp.None? {
        return false, [], [], owner;
      }
      if fp.value in seenFP {
        ReadsAgain(c.intermediates[..i], f, c.name, owner, read, fingerprints, files, owner');
        continue;
      }
      seenFP := seenFP + {fp.value};
      if fp.value in owner' && owner'[fp.value] != c.name {
        OwnedByOther(c.intermediates[..i], c.name, owner, read, fingerprints, files, owner', fp.value);
        return false, [], [], owner;
      }
      ReadsMore(c.intermediates[..i], f, c.name, owner, read, fingerprints, files, owner');
      files := files + [f];
      owner' := owner'[fp.value := c.name];
      fingerprints := fingerprints + [fp.value];
    }
    assert c.intermediates[..|c.intermediates|] == c.intermediates;
    ReadsAll(c.intermediates, c.name, owner, read, fingerprints, files, owner');
    ok := true;
  }

  lemma OwnedByOther(files: seq<string>, name: string, owner: map<string, string>, read: string -> Option<string>,
                     fingerprints: seq<string>, kept: seq<string>, owner': map<string, string>, fp: string)
    requires Reads(files, name, owner, read, fingerprints, kept, owner') && fp !in fingerprints && fp in owner'
    ensures fp in owner && owner[fp] == owner'[fp]
  {
  }

  lemma ReadsAll(files: seq<string>, name: string, owner: map<string, string>, read: string -> Option<string>,
                 fingerprints: seq<string>, kept: seq<string>, owner': map<string, string>)
    requires Reads(files, name, owner, read, fingerprints, kept, owner')
    ensures forall f :: f in files ==> read(f).Some? && (read(f).value in owner ==> owner[read(f).value] == name)
  {
  }

  // ----- all clusters

  ghost predicate AllLoaded(raw: seq<Raw>, read: string -> Option<string>, clusters: seq<W.Cluster>) {
    |clusters| == |raw| && forall i :: 0 <= i < |raw| ==> LoadedAs(raw[i], read, clusters[i])
  }

  /** No two clusters share a fingerprint. */
  ghost predicate Disjoint(clusters: seq<W.Cluster>) {
    forall i, j, fp :: 0 <= i < j < |clusters| && fp in clusters[i].fingerprints ==> fp !in clusters[j].fingerprints
  }

  /** The clusters loaded so far. */
  ghost predicate Progress(raw: seq<Raw>, read: string -> Option<string>, clusters: seq<W.Cluster>, names: set<string>,
                           owner: map<string, string>)
  {
    && AllAcceptable(raw, read) && AllLoaded(raw, read, clusters) && Owners(owner, clusters)
    && (forall n :: n in names <==> exists i :: 0 <= i < |raw| && raw[i].name == n)
  }

  lemma ProgressNone(read: string -> Option<string>)
    ensures Progress([], read, [], {}, map[])
  {
  }

  /** No fingerprint of the next cluster belongs to an earlier one. */
  lemma OwnersApart(raw: seq<Raw>, read: string -> Option<string>, clusters: seq<W.Cluster>, names: set<string>,
                    owner: map<string, string>, c: Raw)
    requires Progress(raw, read, clusters, names, owner) && c.name !in names
    ensures forall fp :: fp in owner ==> owner[fp] != c.name
    ensures (forall f :: f in c.intermediates && read(f).Some? ==> read(f).value !in owner) ==>
              forall i :: 0 <= i < |raw| ==> Apart(raw[i], c, read)
    ensures forall f :: f in c.intermediates && read(f).Some? && read(f).value in owner ==>
              exists i :: 0 <= i < |raw| && !Apart(raw[i], c, read)
  {
    forall fp | fp in owner ensures owner[fp] != c.name {
      var k :| 0 <= k < |clusters| && fp in clusters[k].fingerprints && owner[fp] == clusters[k].name;
      assert LoadedAs(raw[k], read, clusters[k]) && raw[k].name in names;
    }
    forall f | f in c.intermediates && read(f).Some? && read(f).value in owner
      ensures exists i :: 0 <= i < |raw| && !Apart(raw[i], c, read)
    {
      var k :| 0 <= k < |clusters| && read(f).value in clusters[k].fingerprints
          && owner[read(f).value] == clusters[k].name;
      assert LoadedAs(raw[k], read, clusters[k]);
      var g :| g in raw[k].intermediates && read(g) == Some(read(f).value);
      assert !Apart(raw[k], c, read);
    }
    forall i, fp | 0 <= i < |raw| && fp in clusters[i].fingerprints ensures fp in owner {
    }
    forall i, f | 0 <= i < |raw| && f in raw[i].intermediates && read(f).Some? ensures read(f).value in owner {
      assert LoadedAs(raw[i], read, clusters[i]);
      assert read(f).value in clusters[i].fingerprints;
    }
  }

  lemma ProgressMore(raw: seq<Raw>, read: string -> Option<string>, clusters: seq<W.Cluster>, names: set<string>,
                     owner: map<string, string>, c: Raw, fingerprints: seq<string>, kept: seq<string>,
                     owner': map<string, string>)
    requires Progress(raw, read, clusters, names, owner) && c.name !in names && Acceptable(c, read)
    requires Reads(c.intermediates, c.name, owner, read, fingerprints, kept, owner')
    ensures Progress(raw + [c], read, clusters + [W.Cluster(c.name, fingerprints)], names + {c.name}, owner')
  {
    OwnersApart(raw, read, clusters, names, owner, c);
    ReadsAll(c.intermediates, c.name, owner, read, fingerprints, kept, owner');
    OwnersMore(raw, read, clusters, names, owner, c, fingerprints, kept, owner');
    hide Owners, Reads, Apart, Acceptable;
    NamesMore(raw, names, c);
    assert LoadedAs(c, read, W.Cluster(c.name, fingerprints)) by {
      ReadsLoads(c, owner, read, fingerprints, kept, owner');
    }
  }

  lemma NamesMore(raw: seq<Raw>, names: set<string>, c: Raw)
    requires forall n :: n in names <==> exists i :: 0 <= i < |raw| && raw[i].name == n
    ensures forall n :: n in names + {c.name} <==> exists i :: 0 <= i < |raw + [c]| && (raw + [c])[i].name == n
  {
    var more := raw + [c];
    forall n ensures n in names + {c.name} <==> exists i :: 0 <= i < |more| && more[i].name == n {
      if n in names {
        var i :| 0 <= i < |raw| && raw[i].name == n;
        assert more[i].name == n;
      }
      assert more[|raw|].name == c.name;
    }
  }

  lemma ReadsLoads(c: Raw, owner: map<string, string>, read: string -> Option<string>, fingerprints: seq<string>,
                   kept: seq<string>, owner': map<string, string>)
    requires Reads(c.intermediates, c.name, owner, read, fingerprints, kept, owner')
    ensures LoadedAs(c, read, W.Cluster(c.name, fingerprints))
  {
  }

  lemma OwnersMore(raw: seq<Raw>, read: string -> Option<string>, clusters: seq<W.Cluster>, names: set<string>,
                   owner: map<string, string>, c: Raw, fingerprints: seq<string>, kept: seq<string>,
                   owner': map<string, string>)
    requires Progress(raw, read, clusters, names, owner) && c.name !in names
    requires Reads(c.intermediates, c.name, owner, read, fingerprints, kept, owner')
    ensures Owners(owner', clusters + [W.Cluster(c.name, fingerprints)])
  {
    var more := clusters + [W.Cluster(c.name, fingerprints)];
    forall k, fp | 0 <= k < |more| && fp in more[k].fingerprints ensures fp in owner' && owner'[fp] == more[k].name {
      if k < |clusters| {
        assert LoadedAs(raw[k], read, clusters[k]);
        assert raw[k].name in names;
        assert fp in owner && owner[fp] == clusters[k].name;
      }
    }
    forall fp | fp in owner'
      ensures exists k :: 0 <= k < |more| && fp in more[k].fingerprints && owner'[fp] == more[k].name
    {
      if fp in fingerprints {
        assert more[|clusters|].name == c.name;
      } else {
        var k :| 0 <= k < |clusters| && fp in clusters[k].fingerprints && owner[fp] == clusters[k].name;
        assert more[k] == clusters[k];
      }
    }
  }

  lemma NamesKnown(raw: seq<Raw>, read: string -> Option<string>, clusters: seq<W.Cluster>, names: set<string>,
                   owner: map<string, string>, i: nat)
    requires i < |raw| && Progress(raw[..i], read, clusters, names, owner)
    ensures raw[i].name in names ==> !AllAcceptable(raw, read)
  {
    hide Acceptable, Apart, Owners, AllLoaded;
    if raw[i].name in names {
      var k :| 0 <= k < i && raw[..i][k].name == raw[i].name;
      assert raw[k].name == raw[i].name;
    }
  }

  /** A file that cannot be read, or a fingerprint another cluster owns. */
  lemma RefusedRightly(raw: seq<Raw>, read: string -> Option<string>, i: nat, owner: map<string, string>)
    requires i < |raw|
    requires exists f :: f in raw[i].intermediates &&
                         (read(f).None? || (read(f).value in owner && owner[read(f).value] != raw[i].name))
    requires forall f :: f in raw[i].intermediates && read(f).Some? && read(f).value in owner ==>
               exists k :: 0 <= k < |raw[..i]| && !Apart(raw[..i][k], raw[i], read)
    ensures !AllAcceptable(raw, read)
  {
    hide Apart;
    var f :| f in raw[i].intermediates
        && (read(f).None? || (read(f).value in owner && owner[read(f).value] != raw[i].name));
    if read(f).None? {
      assert !Acceptable(raw[i], read);
    } else {
      var k :| 0 <= k < |raw[..i]| && !Apart(raw[..i][k], raw[i], read);
      assert raw[..i][k] == raw[k];
    }
  }

  /** What the reconciler may rely on: no fingerprint has two owners. */
  lemma LoadedConfigured(raw: seq<Raw>, read: string -> Option<string>, clusters: seq<W.Cluster>, names: set<string>,
                         owner: map<string, string>)
    requires Progress(raw, read, clusters, names, owner)
    ensures AllAcceptable(raw, read) && AllLoaded(raw, read, clusters)
    ensures Reconciling.Configured(clusters) && Disjoint(clusters)
  {
    hide Apart;
    forall i | 0 <= i < |clusters|
      ensures ValidSegment(clusters[i].name) && Distinct(clusters[i].fingerprints) && clusters[i].name == raw[i].name
    {
      assert Acceptable(raw[i], read) && LoadedAs(raw[i], read, clusters[i]);
    }
    forall i, j, fp | 0 <= i < j < |clusters| && fp in clusters[i].fingerprints
      ensures fp !in clusters[j].fingerprints
    {
      assert raw[i].name != raw[j].name;
      assert owner[fp] == clusters[i].name;
    }
  }

  /** The clusters of the configuration, or None when one is not acceptable. */
  method LoadClusters(raw: seq<Raw>, read: string -> Option<string>) returns (r: Option<seq<W.Cluster>>)
    ensures r.Some? <==> AllAcceptable(raw, read)
    ensures r.Some? ==> AllLoaded(raw, read, r.value)
    ensures r.Some? ==> Reconciling.Configured(r.value) && Disjoint(r.value)
  {
    hide Progress, Owners, AllLoaded, Reads, Apart, Reconciling.Configured, Disjoint, ValidSegment;
    var clusters: seq<W.Cluster> := [];
    var names: set<string>, owner: map<string, string> := {}, map[];
    ProgressNone(read);
    for i := 0 to |raw|
      invariant Progress(raw[..i], read, clusters, names, owner)
    {
      var c := raw[i];
      assert raw[..i + 1] == raw[..i] + [c];
      if !ValidSegment(c.name) {
        return None;
      }
      NamesKnown(raw, read, clusters, names, owner, i);
      if c.name in names {
        return None;
      }
      names := names + {c.name};
      if !(HTTPS <= c.apiURL) {
        return None;
      }
      if c.tokenFile == "" {
        return None;
      }
      if |c.intermediates| == 0 {
        return None;
      }
      OwnersApart(raw[..i], read, clusters, names - {c.name}, owner, c);
      var ok, fingerprints, files, owner' := ReadFingerprints(c, owner, read);
      if !ok {
        RefusedRightly(raw, read, i, owner);
        return None;
      }
      ProgressMore(raw[..i], read, clusters, names - {c.name}, owner, c, fingerprints, files, owner');
      owner := owner';
      clusters := clusters + [W.Cluster(c.name, fingerprints)];
    }
    assert raw[..|raw|] == raw;
    LoadedConfigured(raw, read, clusters, names, owner);
    r := Some(clusters);
  }
}
