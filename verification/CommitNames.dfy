/** The names in an aggregate output directory, and which of them the residue scan knows. */
module CommitNames {

  const MARKER := "manifest.json"
  const LOCK := ".sumpter-aggregate.lock"

  predicate HasPrefix(s: string, p: string) { p <= s }
  predicate HasSuffix(s: string, x: string) { |x| <= |s| && s[|s| - |x|..] == x }

  /** aggregateCommitArtifactName. */
  predicate ArtifactName(name: string) {
    || name == MARKER || name == "failures.json" || name == "dispositions.json" || name == "records.jsonl"
    || (HasPrefix(name, "records-") && HasSuffix(name, ".jsonl"))
    || HasSuffix(name, ".partial") || HasPrefix(name, ".manifest.json.") || HasPrefix(name, ".failures.json.")
    || HasPrefix(name, ".dispositions.json.")
  }

  /** The pattern of createTemp. */
  function TempName(name: string, random: string): string { "." + name + "." + random + ".tmp" }

  // ---- exactly which names these are

  /** A shard that is not the only one. */
  ghost predicate Numbered(name: string) { exists x :: name == "records-" + x + ".jsonl" }

  ghost predicate Staged(name: string) { exists x :: name == x + ".partial" }

  ghost predicate Under(name: string, p: string) { exists x :: name == p + x }

  /** The names of a commit's files, form by form. */
  ghost predicate CommitName(name: string) {
    || name in {"manifest.json", "failures.json", "dispositions.json", "records.jsonl"}
    || Numbered(name) || Staged(name)
    || Under(name, ".manifest.json.") || Under(name, ".failures.json.") || Under(name, ".dispositions.json.")
  }

  lemma PrefixedIff(s: string, p: string)
    ensures HasPrefix(s, p) <==> Under(s, p)
  {
    if HasPrefix(s, p) { assert s == p + s[|p|..]; }
  }

  lemma StagedIff(s: string)
    ensures HasSuffix(s, ".partial") <==> Staged(s)
  {
    if HasSuffix(s, ".partial") { assert s == s[..|s| - 8] + ".partial"; }
  }

  /** The two ends of a shard's name do not overlap. */
  lemma ShardIsLong(s: string)
    requires HasPrefix(s, "records-") && HasSuffix(s, ".jsonl")
    ensures |s| >= 14
  {
    var e := s[|s| - 6..];
    assert s[7] == '-' && forall k :: |s| - 6 <= k < |s| ==> s[k] == e[k - (|s| - 6)] && e[k - (|s| - 6)] != '-';
  }

  lemma NumberedIff(s: string)
    ensures HasPrefix(s, "records-") && HasSuffix(s, ".jsonl") <==> Numbered(s)
  {
    if HasPrefix(s, "records-") && HasSuffix(s, ".jsonl") {
      ShardIsLong(s);
      assert s == "records-" + s[8..|s| - 6] + ".jsonl";
    }
  }

  /** The residue scan knows exactly the names of a commit's files. */
  lemma ArtifactIff(name: string)
    ensures ArtifactName(name) <==> CommitName(name)
  {
    NumberedIff(name);
    StagedIff(name);
    PrefixedIff(name, ".manifest.json.");
    PrefixedIff(name, ".failures.json.");
    PrefixedIff(name, ".dispositions.json.");
  }

  /** The files that are written atomically. */
  const ATOMIC := {"manifest.json", "failures.json", "dispositions.json"}

  lemma TempStarts(n: string, r: string)
    ensures HasPrefix(TempName(n, r), "." + n + ".")
  {
    assert TempName(n, r) == ("." + n + ".") + (r + ".tmp");
  }

  lemma TempIsArtifact(n: string, r: string)
    requires n in ATOMIC
    ensures ArtifactName(TempName(n, r))
  {
    TempStarts(n, r);
    var p := "." + n + ".";
    if n == "manifest.json" { assert p == ".manifest.json."; }
    else if n == "failures.json" { assert p == ".failures.json."; }
    else { assert p == ".dispositions.json."; }
  }

  /**
   Everything a commit creates beside its lock is an artifact: staging files, atomic files and
   their temporaries, and shards.
   */
  lemma CreatedIsArtifact(n: string, r: string)
    ensures ArtifactName(n + ".partial")
    ensures n in ATOMIC ==> ArtifactName(n) && ArtifactName(TempName(n, r))
    ensures ArtifactName("records.jsonl") && ArtifactName("records-" + n + ".jsonl")
  {
    ArtifactIff(n + ".partial");
    assert Staged(n + ".partial");
    ArtifactIff("records-" + n + ".jsonl");
    assert Numbered("records-" + n + ".jsonl");
    if n in ATOMIC { TempIsArtifact(n, r); }
  }

  /** The lock is not an artifact: a directory that only holds it scans clean. */
  lemma LockIsNoArtifact()
    ensures !ArtifactName(LOCK)
  {
    assert LOCK[1] == 's' && LOCK[|LOCK| - 1] == 'k';
  }

  lemma TempIsNeither(name: string, random: string)
    ensures TempName(name, random) != MARKER && TempName(name, random) != LOCK
  {
    var t := TempName(name, random);
    assert t[0] == '.' && t[|t| - 1] == 'p' && LOCK[|LOCK| - 1] == 'k' && MARKER[0] == 'm';
  }

  lemma PartialIsNeither(name: string)
    ensures name + ".partial" != MARKER && name + ".partial" != LOCK
  {
    var s := name + ".partial";
    assert s[|s| - 1] == 'l' && MARKER[|MARKER| - 1] == 'n' && LOCK[|LOCK| - 1] == 'k';
  }
}
