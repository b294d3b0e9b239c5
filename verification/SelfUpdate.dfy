/** Staging and applying a daemon upgrade, with the process dying between any two
    effects on the file system (internal/daemon/update.go, cmd/daemon/applyupdate.go). */
module SelfUpdate {
  import opened Wire

  type Digest = string

  /** What the release archive and the hash are to this code: an archive unpacks to
      named entries or not at all, and a digest belongs to one byte string. */
  datatype Tools = Tools(hash: Bytes -> Digest, unpack: Bytes -> Option<seq<(string, Bytes)>>)

  ghost predicate CollisionFree(tools: Tools) {
    forall b, b' :: tools.hash(b) == tools.hash(b') ==> b == b'
  }

  datatype Meta = Meta(version: string, sum: Digest)

  /** The installed binary, its ".new" sibling, the staged binary and staged.json. */
  datatype Files = Files(installed: Bytes, incoming: Option<Bytes>, staged: Option<Bytes>, meta: Option<Meta>)

  /** The first archive entry called custosd. */
  function FirstNamed(entries: seq<(string, Bytes)>, name: string): Option<Bytes> {
    if entries == [] then None
    else if entries[0].0 == name then Some(entries[0].1)
    else FirstNamed(entries[1..], name)
  }

  function Binary(tools: Tools, tarball: Bytes): Option<Bytes> {
    match tools.unpack(tarball)
    case None => None
    case Some(entries) => FirstNamed(entries, "custosd")
  }

  /** The checked binary a stage run ends with: a digest for this architecture was
      sent, the download matches it, and the archive holds custosd. */
  function Verified(tools: Tools, want: Digest, download: Option<Bytes>): Option<Bytes> {
    if want == "" || download.None? || tools.hash(download.value) != want then None
    else Binary(tools, download.value)
  }

  /** The content of the first entry with the name. */
  ghost predicate IsFirst(entries: seq<(string, Bytes)>, name: string, bin: Bytes) {
    exists i :: 0 <= i < |entries| && entries[i] == (name, bin) && forall j | 0 <= j < i :: entries[j].0 != name
  }

  /** A digest was sent, the download has it, and the binary is the first custosd in it. */
  ghost predicate Released(tools: Tools, want: Digest, download: Option<Bytes>, bin: Bytes) {
    && want != "" && download.Some? && tools.hash(download.value) == want
    && tools.unpack(download.value).Some? && IsFirst(tools.unpack(download.value).value, "custosd", bin)
  }

  lemma {:induction false} FirstNamedIff(entries: seq<(string, Bytes)>, name: string, bin: Bytes)
    ensures FirstNamed(entries, name) == Some(bin) <==> IsFirst(entries, name, bin)
  {
    if entries != [] {
      var rest := entries[1..];
      FirstNamedIff(rest, name, bin);
      if entries[0].0 == name {
        assert entries[0] == (name, entries[0].1);
        if i :| 0 <= i < |entries| && entries[i] == (name, bin) && forall j | 0 <= j < i :: entries[j].0 != name {
          assert i == 0;
        }
      } else {
        if IsFirst(rest, name, bin) {
          var i :| 0 <= i < |rest| && rest[i] == (name, bin) && forall j | 0 <= j < i :: rest[j].0 != name;
          assert entries[i + 1] == (name, bin);
          assert forall j | 0 <= j < i + 1 :: entries[j].0 != name by {
            assert forall j | 1 <= j < i + 1 :: entries[j] == rest[j - 1];
          }
        }
        if IsFirst(entries, name, bin) {
          var i :| 0 <= i < |entries| && entries[i] == (name, bin) && forall j | 0 <= j < i :: entries[j].0 != name;
          assert rest[i - 1] == (name, bin);
          assert forall j | 0 <= j < i - 1 :: rest[j] == entries[j + 1];
        }
      }
    }
  }

  /** A stage run ends with a binary exactly if that is the released one. */
  lemma VerifiedIff(tools: Tools, want: Digest, download: Option<Bytes>, bin: Bytes)
    ensures Verified(tools, want, download) == Some(bin) <==> Released(tools, want, download, bin)
  {
    if download.Some? && tools.unpack(download.value).Some? {
      FirstNamedIff(tools.unpack(download.value).value, "custosd", bin);
    }
    hide FirstNamed, IsFirst;
  }

  /** The states staging passes through: metadata first, the binary last. */
  function StageStates(tools: Tools, f: Files, version: string, want: Digest, download: Option<Bytes>): seq<Files> {
    match Verified(tools, want, download)
    case None => [f]
    case Some(bin) =>
      var f1 := f.(meta := Some(Meta(version, tools.hash(bin))));
      [f, f1, f1.(staged := Some(bin))]
  }

  predicate Discards(tools: Tools, f: Files, smoke: bool)
    requires f.staged.Some?
  {
    f.meta.None? || tools.hash(f.staged.value) != f.meta.value.sum || !smoke
  }

  /** The staged file is read for the checksum and again for the copy; `swap` is what the
      second read finds if the file was changed in between. */
  function Copied(staged: Bytes, swap: Option<Bytes>): Bytes {
    if swap.None? then staged else swap.value
  }

  /** The states applying passes through. `smoke` is the verdict of the smoke test and
      `cut` how far the copy beside the installed binary got when interrupted. */
  function ApplyStates(tools: Tools, f: Files, smoke: bool, cut: nat, swap: Option<Bytes>): seq<Files> {
    if f.staged.None? then [f]
    else if Discards(tools, f, smoke) then
      [f, f.(staged := None), f.(staged := None, meta := None)]
    else
      var bin := Copied(f.staged.value, swap);
      var f0 := f.(staged := Some(bin));
      var f1 := f0.(incoming := Some(if cut < |bin| then bin[..cut] else bin));
      var f2 := f0.(incoming := Some(bin));
      var f3 := f0.(incoming := None, installed := bin);
      [f0, f1, f2, f3, f3.(staged := None), f3.(staged := None, meta := None)]
  }

  /** The state left by a process that dies after `steps` effects. */
  function CutAt(states: seq<Files>, steps: nat): Files
    requires states != []
  {
    if steps < |states| then states[steps] else states[|states| - 1]
  }

  // ---------------------------------------------------------------------------
  // The programs

  class Disk {
    var files: Files
    const tools: Tools

    constructor (files: Files, tools: Tools)
      ensures this.files == files && this.tools == tools
    {
      this.files, this.tools := files, tools;
    }

    static method FindBinary(entries: seq<(string, Bytes)>) returns (bin: Option<Bytes>)
      ensures bin == FirstNamed(entries, "custosd")
      ensures forall b :: bin == Some(b) <==> IsFirst(entries, "custosd", b)
    {
      forall b
        ensures FirstNamed(entries, "custosd") == Some(b) <==> IsFirst(entries, "custosd", b)
      {
        FirstNamedIff(entries, "custosd", b);
      }
      for i := 0 to |entries|
        invariant FirstNamed(entries, "custosd") == FirstNamed(entries[i..], "custosd")
      {
        if entries[i].0 == "custosd" {
          return Some(entries[i].1);
        }
        assert entries[i..][1..] == entries[i + 1..];
      }
      return None;
    }

    /** stageUpgradeFrom, dying after `steps` effects. */
    method Stage(version: string, want: Digest, download: Option<Bytes>, steps: nat) returns (staged: bool)
      modifies this
      ensures files == CutAt(StageStates(tools, old(files), version, want, download), steps)
      ensures staged <==> (exists bin :: Released(tools, want, download, bin)) && steps >= 2
    {
      forall bin
        ensures Verified(tools, want, download) == Some(bin) <==> Released(tools, want, download, bin)
      {
        VerifiedIff(tools, want, download, bin);
      }
      if want == "" || download.None? || tools.hash(download.value) != want { return false; }
      var entries := tools.unpack(download.value);
      if entries.None? { return false; }
      var bin := FindBinary(entries.value);
      if bin.None? || steps == 0 { return false; }
      files := files.(meta := Some(Meta(version, tools.hash(bin.value))));
      if steps == 1 { return false; }
      files := files.(staged := bin);
      return true;
    }

    method Discard(steps: nat)
      modifies this
      ensures var f := old(files);
              files == CutAt([f, f.(staged := None), f.(staged := None, meta := None)], steps)
    {
      if steps == 0 { return; }
      files := files.(staged := None);
      if steps == 1 { return; }
      files := files.(meta := None);
    }

    /** cmdApplyUpdate, dying after `steps` effects; `swap` changes the staged file under it. */
    method ApplyUpdate(smoke: bool, cut: nat, steps: nat, swap: Option<Bytes>)
      modifies this
      ensures files == CutAt(ApplyStates(tools, old(files), smoke, cut, swap), steps)
    {
      if files.staged.None? { return; }
      if files.meta.None? || tools.hash(files.staged.value) != files.meta.value.sum || !smoke {
        Discard(steps);
        return;
      }
      if swap.Some? {
        files := files.(staged := swap);
      }
      if steps == 0 { return; }
      var bin := files.staged.value;
      files := files.(incoming := Some(if cut < |bin| then bin[..cut] else bin));
      if steps == 1 { return; }
      files := files.(incoming := Some(bin));
      if steps == 2 { return; }
      files := files.(incoming := None, installed := bin);
      if steps == 3 { return; }
      files := files.(staged := None);
      if steps == 4 { return; }
      files := files.(meta := None);
    }
  }

  // ---------------------------------------------------------------------------
  // Any number of upgrades, crashes and corruptions

  datatype Op =
    | Stage(version: string, want: Digest, download: Option<Bytes>, steps: nat)
    | Apply(smoke: bool, cut: nat, steps: nat, swap: Option<Bytes>)
    | Corrupt(staged: Bytes)       // the staged file changes between runs

  function Perform(tools: Tools, f: Files, op: Op): Files {
    match op
    case Stage(version, want, download, steps) => CutAt(StageStates(tools, f, version, want, download), steps)
    case Apply(smoke, cut, steps, swap) => CutAt(ApplyStates(tools, f, smoke, cut, swap), steps)
    case Corrupt(staged) => f.(staged := Some(staged))
  }

  function PerformAll(tools: Tools, f: Files, ops: seq<Op>): Files {
    if ops == [] then f else Perform(tools, PerformAll(tools, f, ops[..|ops| - 1]), ops[|ops| - 1])
  }

  /** The binary is the first custosd of an archive with a digest pushed in `ops`. */
  ghost predicate FromPushed(tools: Tools, ops: seq<Op>, bin: Bytes) {
    exists op :: op in ops && op.Stage? && Released(tools, op.want, op.download, bin)
  }

  /** The installed binary is the first one, or one extracted from a pushed archive. */
  ghost predicate Trusted(tools: Tools, ops: seq<Op>, f: Files, first: Bytes) {
    f.installed == first || FromPushed(tools, ops, f.installed)
  }

  /** staged.json names a binary extracted from a pushed archive. */
  ghost predicate MetaTrusted(tools: Tools, ops: seq<Op>, f: Files) {
    f.meta.Some? ==> exists bin :: FromPushed(tools, ops, bin) && f.meta.value.sum == tools.hash(bin)
  }

  lemma FromPushedStays(tools: Tools, init: seq<Op>, op: Op, bin: Bytes)
    requires FromPushed(tools, init, bin)
    ensures FromPushed(tools, init + [op], bin)
  {
  }

  /** A digest check passed against trusted metadata identifies the bytes. */
  lemma MatchingStagedIsPushed(tools: Tools, ops: seq<Op>, f: Files)
    requires CollisionFree(tools) && MetaTrusted(tools, ops, f)
    requires f.staged.Some? && f.meta.Some? && tools.hash(f.staged.value) == f.meta.value.sum
    ensures FromPushed(tools, ops, f.staged.value)
  {
  }

  lemma StagedIsPushed(tools: Tools, init: seq<Op>, op: Op)
    requires op.Stage? && Verified(tools, op.want, op.download).Some?
    ensures FromPushed(tools, init + [op], Verified(tools, op.want, op.download).value)
  {
    VerifiedIff(tools, op.want, op.download, Verified(tools, op.want, op.download).value);
    assert op in init + [op];
  }

  lemma MetaStaysTrusted(tools: Tools, init: seq<Op>, f: Files, op: Op)
    requires MetaTrusted(tools, init, f)
    ensures MetaTrusted(tools, init + [op], Perform(tools, f, op))
  {
    if f.meta.Some? {
      var bin :| FromPushed(tools, init, bin) && f.meta.value.sum == tools.hash(bin);
      FromPushedStays(tools, init, op, bin);
    }
    if op.Stage? && Verified(tools, op.want, op.download).Some? {
      StagedIsPushed(tools, init, op);
    }
    hide FromPushed, Verified;
  }

  /** Whatever is corrupted or swapped, staged.json is only ever written for a pushed binary. */
  lemma {:induction false} MetaIsAlwaysTrusted(tools: Tools, f: Files, ops: seq<Op>)
    requires f.meta.None?
    ensures MetaTrusted(tools, ops, PerformAll(tools, f, ops))
  {
    if ops != [] {
      var init, last := ops[..|ops| - 1], ops[|ops| - 1];
      assert ops == init + [last];
      MetaIsAlwaysTrusted(tools, f, init);
      MetaStaysTrusted(tools, init, PerformAll(tools, f, init), last);
    }
  }

  /** The op is an apply run that gets as far as the rename. */
  predicate Installs(tools: Tools, f: Files, op: Op) {
    op.Apply? && f.staged.Some? && !Discards(tools, f, op.smoke) && op.steps >= 3
  }

  lemma InstallsOrKeeps(tools: Tools, f: Files, op: Op)
    ensures Perform(tools, f, op).installed ==
            if Installs(tools, f, op) then Copied(f.staged.value, op.swap) else f.installed
  {
    hide Verified;
  }

  /** After `done`, the op installs a file put in place of the staged one between its checksum
      and its copy, and that file is neither the first binary nor a pushed one. */
  ghost predicate Spoils(tools: Tools, f: Files, done: seq<Op>, op: Op) {
    && Installs(tools, PerformAll(tools, f, done), op)
    && op.swap.Some? && op.swap.value != f.installed && !FromPushed(tools, done, op.swap.value)
  }

  lemma PushedBefore(tools: Tools, init: seq<Op>, op: Op, bin: Bytes)
    requires !op.Stage?
    ensures FromPushed(tools, init + [op], bin) <==> FromPushed(tools, init, bin)
  {
    if FromPushed(tools, init, bin) {
      FromPushedStays(tools, init, op, bin);
    }
  }

  /** One more op keeps the installed binary trusted exactly when it does not spoil it. */
  lemma TrustKeptIff(tools: Tools, f: Files, init: seq<Op>, op: Op)
    requires CollisionFree(tools) && f.meta.None? && Trusted(tools, init, PerformAll(tools, f, init), f.installed)
    ensures Trusted(tools, init + [op], Perform(tools, PerformAll(tools, f, init), op), f.installed) <==>
            !Spoils(tools, f, init, op)
  {
    var f1 := PerformAll(tools, f, init);
    InstallsOrKeeps(tools, f1, op);
    if Installs(tools, f1, op) {
      MetaIsAlwaysTrusted(tools, f, init);
      MatchingStagedIsPushed(tools, init, f1);
      PushedBefore(tools, init, op, Copied(f1.staged.value, op.swap));
    } else if FromPushed(tools, init, f1.installed) {
      FromPushedStays(tools, init, op, f1.installed);
    }
    hide FromPushed, Perform, PerformAll;
  }

  /** At every point at which a process may die, over any number of upgrades, crashes and
      corruptions: the installed binary has always been whole and the first one or one
      extracted from an archive matching a pushed digest, exactly when no apply run
      installed a foreign file that was put in place of the checked one. */
  lemma {:induction false} InstalledIsTrustedIff(tools: Tools, f: Files, ops: seq<Op>)
    requires CollisionFree(tools) && f.meta.None?
    ensures AlwaysTrusted(tools, f, ops) <==> forall k | 0 <= k < |ops| :: !Spoils(tools, f, ops[..k], ops[k])
  {
    hide FromPushed, Spoils, Trusted, AlwaysTrusted;
    if ops == [] {
      TrustedAtFirst(tools, f);
    } else {
      var init, last := ops[..|ops| - 1], ops[|ops| - 1];
      assert forall k | 0 <= k < |init| :: init[..k] == ops[..k] && init[k] == ops[k];
      InstalledIsTrustedIff(tools, f, init);
      TrustedOnceMore(tools, f, ops);
      if AlwaysTrusted(tools, f, init) {
        TrustedToTheEnd(tools, f, init);
        TrustKeptIff(tools, f, init, last);
      }
      assert ops == init + [last];
    }
  }

  /** The installed binary is trusted after every prefix of the ops. */
  ghost predicate AlwaysTrusted(tools: Tools, f: Files, ops: seq<Op>) {
    forall k | 0 <= k <= |ops| :: Trusted(tools, ops[..k], PerformAll(tools, f, ops[..k]), f.installed)
  }

  lemma TrustedOnceMore(tools: Tools, f: Files, ops: seq<Op>)
    requires ops != []
    ensures var init := ops[..|ops| - 1];
            AlwaysTrusted(tools, f, ops) <==>
            AlwaysTrusted(tools, f, init) && Trusted(tools, ops, PerformAll(tools, f, ops), f.installed)
  {
    hide Trusted, PerformAll;
    var init := ops[..|ops| - 1];
    assert ops[..|ops|] == ops && forall k | 0 <= k <= |init| :: init[..k] == ops[..k];
  }

  lemma TrustedToTheEnd(tools: Tools, f: Files, ops: seq<Op>)
    requires AlwaysTrusted(tools, f, ops)
    ensures Trusted(tools, ops, PerformAll(tools, f, ops), f.installed)
  {
    assert ops[..|ops|] == ops;
    hide Trusted, PerformAll;
  }

  lemma TrustedAtFirst(tools: Tools, f: Files)
    ensures AlwaysTrusted(tools, f, [])
  {
    var none: seq<Op> := [];
    assert none[..0] == none;
  }

  /** The staged binary replaced between the checksum and the copy. */
  function Swapped(version: string, want: Digest, tarball: Bytes, cut: nat, foreign: Bytes): seq<Op> {
    [Stage(version, want, Some(tarball), 2), Apply(true, cut, 5, Some(foreign))]
  }

  /** For every upgrade and every foreign file there is a run that installs the file. */
  lemma SwapInstallsForeign(
    tools: Tools, f: Files, version: string, want: Digest, tarball: Bytes, bin: Bytes, cut: nat, foreign: Bytes)
    requires f.meta.None? && Released(tools, want, Some(tarball), bin)
    requires foreign != f.installed && foreign != bin
    ensures var ops := Swapped(version, want, tarball, cut, foreign);
            && PerformAll(tools, f, ops).installed == foreign
            && !Trusted(tools, ops, PerformAll(tools, f, ops), f.installed)
            && Spoils(tools, f, ops[..1], ops[1])
  {
    var ops := Swapped(version, want, tarball, cut, foreign);
    VerifiedIff(tools, want, Some(tarball), bin);
    VerifiedIff(tools, want, Some(tarball), foreign);
    assert ops[..1] == [ops[0]] && ops[..1][..0] == [];
    assert PerformAll(tools, f, ops[..1]) == f.(meta := Some(Meta(version, tools.hash(bin))), staged := Some(bin));
    assert PerformAll(tools, f, ops) == Perform(tools, PerformAll(tools, f, ops[..1]), ops[1]);
    InstallsOrKeeps(tools, PerformAll(tools, f, ops[..1]), ops[1]);
    hide Perform, PerformAll;
  }

  /** One apply run, wherever it stops: the installed binary changes only to staged
      bytes that agree with staged.json, and a run that completes leaves nothing staged. */
  lemma ApplyRun(tools: Tools, f: Files, smoke: bool, cut: nat, steps: nat)
    ensures var f' := CutAt(ApplyStates(tools, f, smoke, cut, None), steps);
            && (f'.installed != f.installed ==>
                  && f.staged == Some(f'.installed) && smoke
                  && f.meta.Some? && tools.hash(f'.installed) == f.meta.value.sum)
            && (steps >= |ApplyStates(tools, f, smoke, cut, None)| - 1 ==>
                  f'.staged == None && (f.staged.Some? ==> f'.meta == None))
            && (f.staged.Some? && !Discards(tools, f, smoke) && steps >= 3 ==> f'.installed == f.staged.value)
  {
  }

  /** One stage run, wherever it stops: the installed binary is not touched, the staged one only
      ever becomes the released one with staged.json naming its version and digest, and without
      a release nothing changes. */
  lemma StageRun(tools: Tools, f: Files, version: string, want: Digest, download: Option<Bytes>, steps: nat)
    ensures var f' := CutAt(StageStates(tools, f, version, want, download), steps);
            && f'.installed == f.installed && f'.incoming == f.incoming
            && (f' != f ==> exists bin ::
                  && Released(tools, want, download, bin)
                  && f'.meta == Some(Meta(version, tools.hash(bin)))
                  && (f'.staged == f.staged || f'.staged == Some(bin)))
            && forall bin | Released(tools, want, download, bin) && steps >= 2 ::
                 f'.staged == Some(bin) && f'.meta == Some(Meta(version, tools.hash(bin)))
  {
    forall bin
      ensures Verified(tools, want, download) == Some(bin) <==> Released(tools, want, download, bin)
    {
      VerifiedIff(tools, want, download, bin);
    }
    hide Verified, Released;
  }

  /** A stage run that is not cut short, then an apply run whose smoke test passes,
      install exactly the released binary. */
  lemma StageThenApplyInstalls(
    tools: Tools, f: Files, version: string, want: Digest, download: Option<Bytes>, bin: Bytes, cut: nat)
    requires Released(tools, want, download, bin)
    ensures var f1 := CutAt(StageStates(tools, f, version, want, download), 2);
            var f2 := CutAt(ApplyStates(tools, f1, true, cut, None), 5);
            f2 == Files(bin, None, None, None)
  {
    VerifiedIff(tools, want, download, bin);
  }
}
