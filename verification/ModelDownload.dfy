/** Preparing the model files: a resumable, retried and hash-checked download into a directory. File names stand for
    paths below the destination. A run may be killed before any change to a file, and run again later. */
module ModelDownload {
  import opened Outcomes
  import opened Decimals

  type Bytes = seq<bv8>

  datatype Asset = Asset(path: string, bytes: nat, sha256: string)

  /** The chunks are those that reach the disk; `breaks` says the transfer then fails. */
  datatype Reply =
    | Unreachable
    | Response(status: nat, contentRange: Option<string>, body: Option<seq<Bytes>>, breaks: bool)

  /** The server's answer to the n-th request ever made, for an asset from an offset on. */
  type Server = (nat, Asset, nat) -> Reply

  datatype Step = Complete | Retry | Fatal | Cut
  datatype Outcome = Prepared | Killed | LinkRefused | DownloadFailed | Mismatch | NoPartial

  const ATTEMPTS := 3

  function PartOf(asset: Asset): string {
    asset.path + ".part"
  }

  function Join(chunks: seq<Bytes>): Bytes {
    if chunks == [] then [] else Join(chunks[..|chunks| - 1]) + chunks[|chunks| - 1]
  }

  predicate Successful(reply: Reply) {
    reply.Response? && 200 <= reply.status < 300 && reply.body.Some?
  }

  /** A partial response must say that it starts at the offset asked for. */
  predicate StartsAt(reply: Reply, offset: nat)
    requires reply.Response?
  {
    reply.contentRange.Some? && "bytes " + ToDecimal(offset) + "-" <= reply.contentRange.value
  }

  predicate Retryable(reply: Reply, offset: nat) {
    if reply.Unreachable? then true
    else if !Successful(reply) then reply.status >= 500 || reply.status == 429
    else reply.status != 206 || StartsAt(reply, offset)
  }

  predicate Accepted(reply: Reply, offset: nat) {
    Successful(reply) && (reply.status == 206 ==> StartsAt(reply, offset))
  }

  /** What the chunks of an accepted reply are written behind. */
  function Base(reply: Reply, offset: nat, had: Bytes): Bytes
    requires Successful(reply)
  {
    if reply.status == 206 && offset > 0 then had else []
  }

  /** Some of the chunks have arrived behind the base. */
  ghost predicate Arrived(base: Bytes, chunks: seq<Bytes>, data: Bytes) {
    exists k :: 0 <= k <= |chunks| && data == Received(base, chunks, k)
  }

  function Received(base: Bytes, chunks: seq<Bytes>, k: nat): Bytes
    requires k <= |chunks|
  {
    base + Join(chunks[..k])
  }

  /** A server that sends the original: all of it or from the offset on, possibly broken off. */
  ghost predicate Serves(server: Server, asset: Asset, original: Bytes) {
    forall n: nat, offset: nat :: offset <= |original| && Accepted(server(n, asset, offset), offset) ==>
      Sends(server(n, asset, offset), original[if server(n, asset, offset).status == 206 then offset else 0..])
  }

  predicate Sends(reply: Reply, wanted: Bytes)
    requires Successful(reply)
  {
    if reply.breaks then Join(reply.body.value) <= wanted else Join(reply.body.value) == wanted
  }

  lemma {:induction false} JoinGrows(chunks: seq<Bytes>, k: nat)
    requires k <= |chunks|
    ensures Join(chunks[..k]) <= Join(chunks)
  {
    if k < |chunks| {
      JoinGrows(chunks[..|chunks| - 1], k);
      assert chunks[..|chunks| - 1][..k] == chunks[..k];
    } else {
      assert chunks[..k] == chunks;
    }
  }

  /** Whatever part of an original's reply has arrived, the partial is a prefix of the original. */
  lemma ArrivedIsPrefix(reply: Reply, offset: nat, had: Bytes, original: Bytes, data: Bytes)
    requires Accepted(reply, offset) && had <= original && offset == |had|
    requires Sends(reply, original[if reply.status == 206 then offset else 0..])
    requires Arrived(Base(reply, offset, had), reply.body.value, data)
    ensures data <= original
    ensures !reply.breaks && data == Received(Base(reply, offset, had), reply.body.value, |reply.body.value|) ==> data == original
  {
    hide StartsAt, Join;
    var base, chunks := Base(reply, offset, had), reply.body.value;
    var k :| 0 <= k <= |chunks| && data == Received(base, chunks, k);
    JoinGrows(chunks, k);
    assert chunks[..|chunks|] == chunks;
    var from := if reply.status == 206 then offset else 0;
    assert base == original[..from];
    PrefixBehind(original, from, Join(chunks), Join(chunks[..k]));
  }

  lemma PrefixBehind(original: Bytes, from: nat, sent: Bytes, arrived: Bytes)
    requires from <= |original| && arrived <= sent <= original[from..]
    ensures original[..from] + arrived <= original
    ensures sent == original[from..] ==> original[..from] + sent == original
  {
    assert original == original[..from] + original[from..];
  }

  lemma WholeBody(chunks: seq<Bytes>)
    ensures Received([], chunks, |chunks|) == Join(chunks)
  {
    assert chunks[..|chunks|] == chunks;
  }

  /** An accepted reply that does not break off, within what is left of the run. */
  predicate Delivers(reply: Reply, offset: nat, life: nat) {
    Accepted(reply, offset) && !reply.breaks && life > |reply.body.value|
  }

  class Directory {
    const hash: Bytes -> string
    /** Names that are symbolic links. */
    const links: set<string>
    var files: map<string, Bytes>
    /** Requests made so far, over all runs. */
    var requests: nat
    /** How many more changes to files this run makes before it is killed. */
    var life: nat

    constructor (hash: Bytes -> string, links: set<string>, files: map<string, Bytes>)
      ensures this.hash == hash && this.links == links && this.files == files && requests == 0
    {
      this.hash, this.links, this.files, requests, life := hash, links, files, 0, 0;
    }

    predicate Verified(asset: Asset, data: Bytes) {
      |data| == asset.bytes && hash(data) == asset.sha256
    }

    predicate Installed(asset: Asset)
      reads this`files
    {
      asset.path in files && Verified(asset, files[asset.path])
    }

    /** The asset's partial, if there is one, is a prefix of the original. */
    predicate Resumable(asset: Asset, original: Bytes)
      reads this`files
    {
      PartOf(asset) in files ==> files[PartOf(asset)] <= original
    }

    /** Replaces a file's contents by the given ones, unless the run is killed first. */
    method Write(name: string, data: Bytes) returns (alive: bool)
      modifies this`files, this`life
      ensures alive <==> old(life) > 0
      ensures alive ==> files == old(files)[name := data] && life == old(life) - 1
      ensures !alive ==> files == old(files)
    {
      alive := life > 0;
      if alive { life, files := life - 1, files[name := data]; }
    }

    /** Copies a reply's chunks into the partial, which is first truncated or opened for appending. */
    method Copy(part: string, base: Bytes, chunks: seq<Bytes>) returns (alive: bool)
      requires base != [] ==> part in files && files[part] == base
      modifies this`files, this`life
      ensures alive <==> old(life) > |chunks|
      ensures alive ==> files == old(files)[part := Received(base, chunks, |chunks|)]
      ensures !alive ==> files == old(files) || (part in files && files == old(files)[part := files[part]] && Arrived(base, chunks, files[part]))
    {
      alive := Write(part, base);
      assert files == old(files) || files == old(files)[part := base];
      if !alive { return; }
      assert Received(base, chunks, 0) == base;
      for i := 0 to |chunks|
        invariant files == old(files)[part := Received(base, chunks, i)] && life == old(life) - 1 - i
      {
        assert chunks[..i + 1][..i] == chunks[..i];
        assert Received(base, chunks, i + 1) == files[part] + chunks[i];
        alive := Write(part, files[part] + chunks[i]);
        if !alive { return; }
      }
      alive := true;
    }

    /** One request: it either adds to the partial, starts it over, or leaves it alone. */
    method Fetch(asset: Asset, offset: nat, server: Server) returns (step: Step)
      requires offset == if PartOf(asset) in files then |files[PartOf(asset)]| else 0
      modifies this`files, this`life, this`requests
      ensures requests == old(requests) + 1
      ensures var reply, part := server(old(requests), asset, offset), PartOf(asset);
              if !Accepted(reply, offset) then
                files == old(files) && step == if Retryable(reply, offset) then Retry else Fatal
              else
                var base := Base(reply, offset, if part in old(files) then old(files)[part] else []);
                && (step == Cut <==> old(life) <= |reply.body.value|)
                && if step == Cut then
                  files == old(files) || (part in files && files == old(files)[part := files[part]] && Arrived(base, reply.body.value, files[part]))
                else
                  && step == (if reply.breaks then Retry else Complete)
                  && files == old(files)[part := Received(base, reply.body.value, |reply.body.value|)]
    {
      var part := PartOf(asset);
      var reply := server(requests, asset, offset);
      requests := requests + 1;
      if !Accepted(reply, offset) { return if Retryable(reply, offset) then Retry else Fatal; }
      var base := if reply.status == 206 && offset > 0 then files[part] else [];
      var alive := Copy(part, base, reply.body.value);
      step := if !alive then Cut else if reply.breaks then Retry else Complete;
    }

    /** A fetch from a server of the original keeps the partial a prefix of it and completes only with all of it. */
    method FetchOriginal(asset: Asset, offset: nat, server: Server, ghost original: Bytes) returns (step: Step)
      requires offset == (if PartOf(asset) in files then |files[PartOf(asset)]| else 0)
      modifies this`files, this`life, this`requests
      ensures requests == old(requests) + 1
      ensures OthersKept(old(files), files, {PartOf(asset)})
      ensures step == Complete ==> PartOf(asset) in files
      ensures Delivers(server(old(requests), asset, offset), offset, old(life)) && offset == 0 ==>
                step == Complete && files[PartOf(asset)] == Join(server(old(requests), asset, 0).body.value)
      ensures old(Resumable(asset, original)) && Serves(server, asset, original) ==>
                Resumable(asset, original) && (step == Complete ==> files[PartOf(asset)] == original)
    {
      hide Retryable, StartsAt, Join;
      ghost var part := PartOf(asset);
      if Delivers(server(requests, asset, offset), offset, life) && offset == 0 { WholeBody(server(requests, asset, 0).body.value); }
      ghost var had := if part in files then files[part] else [];
      ghost var reply := server(requests, asset, offset);
      step := Fetch(asset, offset, server);
      if Accepted(reply, offset) && had <= original && Serves(server, asset, original) {
        var base, chunks := Base(reply, offset, had), reply.body.value;
        if step != Cut || files != old(files) {
          assert step != Cut ==> files[part] == Received(base, chunks, |chunks|);
          ArrivedIsPrefix(reply, offset, had, original, files[part]);
        }
      }
    }

    /** At most three requests for what is missing of the partial; None when it should now be complete. */
    method Download(asset: Asset, server: Server, ghost original: Bytes) returns (stop: Option<Outcome>)
      modifies this`files, this`life, this`requests
      ensures OthersKept(old(files), files, {PartOf(asset)})
      ensures stop.Some? ==> stop.value == Killed || stop.value == DownloadFailed
      ensures old(requests) <= requests <= old(requests) + ATTEMPTS
      ensures old(Resumable(asset, original)) && Serves(server, asset, original) ==>
                Resumable(asset, original)
                && (stop.None? && |original| == asset.bytes ==> if PartOf(asset) in files then files[PartOf(asset)] == original else asset.bytes == 0)
      ensures old(PartOf(asset) in files && |files[PartOf(asset)]| == asset.bytes) ==>
                stop.None? && files == old(files) && requests == old(requests)
      ensures stop.None? && requests == old(requests) ==>
                PartOf(asset) !in files || (files == old(files) && |files[PartOf(asset)]| == asset.bytes)
      ensures old(PartOf(asset) !in files) && asset.bytes > 0 && Delivers(server(old(requests), asset, 0), 0, old(life)) ==>
                stop.None? && PartOf(asset) in files && files[PartOf(asset)] == Join(server(old(requests), asset, 0).body.value)
    {
      hide Serves, Delivers, Join;
      var part := PartOf(asset);
      ghost var honest := Resumable(asset, original) && Serves(server, asset, original);
      var attempt := 1;
      while true
        invariant 1 <= attempt <= ATTEMPTS && old(requests) <= requests <= old(requests) + attempt - 1
        invariant OthersKept(old(files), files, {part})
        invariant honest ==> Resumable(asset, original)
        invariant requests == old(requests) ==> files == old(files) && life == old(life) && attempt == 1
        invariant requests > old(requests) ==> !(old(part !in files) && Delivers(server(old(requests), asset, 0), 0, old(life)))
        invariant (files == old(files) && requests == old(requests)) || !old(part in files && |files[part]| == asset.bytes)
        decreases ATTEMPTS - attempt
      {
        var offset := if part in files then |files[part]| else 0;
        if offset > asset.bytes {
          if life == 0 { return Some(Killed); }
          life, files, offset := life - 1, files - {part}, 0;
        }
        if offset >= asset.bytes {
          if part in files && honest && |original| == asset.bytes { assert files[part] == original[..|original|]; }
          return None;
        }
        var step := FetchOriginal(asset, offset, server, original);
        if step == Complete { return None; }
        if step == Cut { return Some(Killed); }
        if step == Fatal || attempt >= ATTEMPTS { return Some(DownloadFailed); }
        attempt := attempt + 1;
      }
    }

    /** Downloads one asset and puts it in place, unless it is there already. */
    method PrepareAsset(asset: Asset, server: Server, ghost original: Bytes) returns (outcome: Outcome)
      modifies this`files, this`life, this`requests
      // Only the asset and its partial change, and the asset only to a verified file.
      ensures OthersKept(old(files), files, {asset.path, PartOf(asset)})
      ensures SameFile(old(files), files, asset.path) || Installed(asset)
      ensures outcome == Prepared ==> Installed(asset)
      ensures old(requests) <= requests <= old(requests) + ATTEMPTS
      ensures old(Installed(asset)) ==> outcome == Prepared && files == old(files) && requests == old(requests)
      // What is left of the original's download is always a prefix of it, and all of it is installed.
      ensures old(Resumable(asset, original)) && Serves(server, asset, original) ==> Resumable(asset, original)
      ensures old(Resumable(asset, original)) && Serves(server, asset, original) && Verified(asset, original) ==>
                outcome != Mismatch && (outcome == NoPartial ==> asset.bytes == 0)
      // A partial of the right size and the wrong contents is never replaced: a run refuses it without a request, and
      // without a request it refuses nothing else.
      ensures old(Poisoned(asset)) <==> outcome == Mismatch && requests == old(requests)
      ensures old(Poisoned(asset)) ==> files == old(files)
      // A refusal leaves such a partial behind, or one of another size, which a later run resumes or starts over.
      ensures outcome == Mismatch ==> (if HasOddPartial(asset) then requests > old(requests) else Poisoned(asset))
      // An ordinary first run gets there when the server delivers wrong bytes of the right length.
      ensures old(NothingYet(asset)) && Delivers(server(old(requests), asset, 0), 0, old(life))
              && WrongBytes(asset, Join(server(old(requests), asset, 0).body.value)) ==>
                outcome == Mismatch && Poisoned(asset)
    {
      hide Serves, Delivers, Join;
      var part := PartOf(asset);
      assert part != asset.path by { assert |part| != |asset.path|; }
      if asset.path in files && Verified(asset, files[asset.path]) { return Prepared; }
      if part in files && part in links { return LinkRefused; }
      var stop := Download(asset, server, original);
      assert OthersKept(old(files), files, {asset.path, part});
      if stop.Some? { return stop.value; }
      if part !in files { return NoPartial; }
      if !Verified(asset, files[part]) { return Mismatch; }
      if life == 0 { return Killed; }
      label Rename:
      life, files := life - 1, files[asset.path := files[part]] - {part};
      assert forall name :: name != asset.path && name != part ==> SameFile(old@Rename(files), files, name);
      outcome := Prepared;
    }

    /** Right in size, wrong in contents. */
    predicate WrongBytes(asset: Asset, data: Bytes) {
      |data| == asset.bytes && hash(data) != asset.sha256
    }

    predicate NothingYet(asset: Asset)
      reads this`files
    {
      !Installed(asset) && PartOf(asset) !in files && PartOf(asset) !in links && asset.bytes > 0
    }

    predicate Poisoned(asset: Asset)
      reads this`files
    {
      var part := PartOf(asset);
      !Installed(asset) && part in files && part !in links && WrongBytes(asset, files[part])
    }

    predicate HasOddPartial(asset: Asset)
      reads this`files
    {
      PartOf(asset) in links || (PartOf(asset) in files && |files[PartOf(asset)]| != asset.bytes)
    }

    /** The first asset that is not installed is refused for its partial. */
    predicate Stuck(assets: seq<Asset>)
      reads this`files
    {
      exists i :: 0 <= i < |assets| && Poisoned(assets[i]) && forall j :: 0 <= j < i ==> Installed(assets[j])
    }

    ghost predicate KeptOrVerified(was: map<string, Bytes>, asset: Asset)
      reads this`files
    {
      SameFile(was, files, asset.path) || Installed(asset)
    }

    ghost predicate AllResumable(assets: seq<Asset>, originals: Asset -> Bytes)
      reads this`files
    {
      forall a :: a in assets ==> Resumable(a, originals(a))
    }

    predicate AllInstalled(assets: seq<Asset>)
      reads this`files
    {
      forall a :: a in assets ==> Installed(a)
    }

    /** One run over the manifest; whatever the server sends and wherever the run is killed, an asset's file only ever
        changes to a verified one. */
    method Prepare(assets: seq<Asset>, server: Server, ghost originals: Asset -> Bytes) returns (outcome: Outcome)
      requires Separate(assets)
      modifies this`files, this`life, this`requests
      ensures forall a :: a in assets ==> KeptOrVerified(old(files), a)
      ensures outcome == Prepared ==> AllInstalled(assets)
      ensures old(requests) <= requests <= old(requests) + ATTEMPTS * |assets|
      ensures old(AllInstalled(assets)) ==> outcome == Prepared && files == old(files) && requests == old(requests)
      ensures old(AllResumable(assets, originals)) && AllServed(server, assets, originals) ==> AllResumable(assets, originals)
      ensures old(AllResumable(assets, originals)) && AllServed(server, assets, originals)
              && (forall a :: a in assets ==> Verified(a, originals(a)) && a.bytes > 0) ==>
                outcome != Mismatch && outcome != NoPartial
      // Once stuck, always stuck; and a run that makes no request and changes nothing refuses only then.
      ensures old(Stuck(assets)) <==> outcome == Mismatch && requests == old(requests) && files == old(files)
      ensures outcome == Mismatch && requests == old(requests) ==> Stuck(assets)
      // After any refusal the manifest is stuck, or the refused partial is of another size (or a link).
      ensures outcome == Mismatch ==> Stuck(assets) || exists a :: a in assets && HasOddPartial(a)
    {
      hide Serves, PartOf, Verified, Separate, WrongBytes, HasOddPartial;
      for i := 0 to |assets|
        invariant forall a :: a in assets ==> KeptOrVerified(old(files), a)
        invariant forall j :: 0 <= j < i ==> Installed(assets[j])
        invariant old(requests) <= requests <= old(requests) + ATTEMPTS * i
        invariant old(AllInstalled(assets)) ==> files == old(files) && requests == old(requests)
        invariant old(Stuck(assets)) ==> files == old(files) && requests == old(requests)
        invariant old(AllResumable(assets, originals)) && AllServed(server, assets, originals) ==> AllResumable(assets, originals)
      {
        var asset := assets[i];
        assert old(AllInstalled(assets)) ==> old(Installed(asset));
        assert old(Stuck(assets)) && files == old(files) ==> Installed(asset) || Poisoned(asset);
        label Before:
        outcome := PrepareAsset(asset, server, originals(asset));
        OtherAssetsKept(assets, asset, old@Before(files), files);
        if outcome != Prepared {
          return;
        }
      }
      outcome := Prepared;
    }

    /** Any number of runs, each killed anywhere or not, against servers that may differ from run to run. */
    method PrepareAgain(assets: seq<Asset>, runs: seq<(nat, Server)>, ghost originals: Asset -> Bytes) returns (outcomes: seq<Outcome>)
      requires Separate(assets)
      modifies this`files, this`life, this`requests
      ensures |outcomes| == |runs|
      ensures forall a :: a in assets ==> KeptOrVerified(old(files), a)
      ensures Prepared in outcomes ==> AllInstalled(assets)
      ensures requests <= old(requests) + ATTEMPTS * |assets| * |runs|
      ensures old(AllResumable(assets, originals)) && (forall r :: r in runs ==> AllServed(r.1, assets, originals)) ==>
                AllResumable(assets, originals)
      // A manifest that is stuck stays so, whatever any later server sends.
      ensures old(Stuck(assets)) ==> files == old(files) && requests == old(requests) && forall o :: o in outcomes ==> o == Mismatch
    {
      hide Serves, Separate, AllServed, PartOf, Verified;
      outcomes := [];
      ghost var perRun := ATTEMPTS * |assets|;
      assert perRun * 0 == 0;
      for i := 0 to |runs|
        invariant |outcomes| == i
        invariant forall a :: a in assets ==> KeptOrVerified(old(files), a)
        invariant Prepared in outcomes ==> AllInstalled(assets)
        invariant requests <= old(requests) + perRun * i
        invariant old(Stuck(assets)) ==> files == old(files) && requests == old(requests) && forall o :: o in outcomes ==> o == Mismatch
        invariant old(AllResumable(assets, originals)) && (forall r :: r in runs ==> AllServed(r.1, assets, originals)) ==>
                    AllResumable(assets, originals)
      {
        life := runs[i].0;
        assert perRun * (i + 1) == perRun * i + perRun;
        var outcome := Prepare(assets, runs[i].1, originals);
        outcomes := outcomes + [outcome];
      }
    }
  }

  predicate SameFile(was: map<string, Bytes>, now: map<string, Bytes>, name: string) {
    if name in was then name in now && now[name] == was[name] else name !in now
  }

  ghost predicate OthersKept(was: map<string, Bytes>, now: map<string, Bytes>, names: set<string>) {
    forall name :: name !in names ==> SameFile(was, now, name)
  }

  /** No asset's file is another's, or another's partial. */
  predicate Separate(assets: seq<Asset>) {
    && (forall i, j :: 0 <= i < j < |assets| ==> assets[i].path != assets[j].path)
    && (forall a, b :: a in assets && b in assets ==> a.path != PartOf(b))
  }

  lemma OtherAssetsKept(assets: seq<Asset>, asset: Asset, was: map<string, Bytes>, now: map<string, Bytes>)
    requires Separate(assets) && asset in assets && OthersKept(was, now, {asset.path, PartOf(asset)})
    ensures forall a :: a in assets && a != asset ==> SameFile(was, now, a.path) && SameFile(was, now, PartOf(a))
  {
    forall a | a in assets && a != asset ensures SameFile(was, now, a.path) && SameFile(was, now, PartOf(a)) {
      SeparateNames(assets, a, asset);
    }
  }

  lemma SeparateNames(assets: seq<Asset>, a: Asset, b: Asset)
    requires Separate(assets) && a in assets && b in assets && a != b
    ensures a.path != b.path && PartOf(a) != PartOf(b) && a.path != PartOf(b) && b.path != PartOf(a)
  {
    assert PartOf(a)[..|a.path|] == a.path && PartOf(b)[..|b.path|] == b.path;
  }

  ghost predicate AllServed(server: Server, assets: seq<Asset>, originals: Asset -> Bytes) {
    forall a :: a in assets ==> Serves(server, a, originals(a))
  }
}
