/** Filename sanitising of the two blob stores, and the locations they build from it. */
module Filenames {
  import opened Codec

  const MAX_NAME := 180
  const FALLBACK := "upload.bin"

  /** The class `[\w.\-()+ ]`. */
  predicate Allowed(c: char) {
    || '0' <= c <= '9' || 'a' <= c <= 'z' || 'A' <= c <= 'Z'
    || c == '_' || c == '.' || c == '-' || c == '(' || c == ')' || c == '+' || c == ' '
  }

  predicate AllAllowed(s: string) {
    forall i :: 0 <= i < |s| ==> Allowed(s[i])
  }

  /** `replace(/[^\w.\-()+ ]+/g, "_")`: each maximal run of other characters becomes one underscore.
      `inRun` says that the character before `s` was already replaced. */
  function ReplaceRuns(s: string, inRun: bool): (r: string)
    ensures AllAllowed(r) && |r| <= |s|
    ensures s != "" && !inRun ==> r != ""
  {
    if s == "" then ""
    else if Allowed(s[0]) then [s[0]] + ReplaceRuns(s[1..], false)
    else (if inRun then "" else "_") + ReplaceRuns(s[1..], true)
  }

  /** The text after the last character of `separators`; all of it when there is none. */
  function LastSegment(s: string, separators: string): (r: string)
    ensures forall i :: 0 <= i < |r| ==> r[i] !in separators
    ensures |r| <= |s| && r == s[|s| - |r|..]
    ensures |r| < |s| ==> s[|s| - |r| - 1] in separators
  {
    if s == "" || s[|s| - 1] in separators then ""
    else
      var r := LastSegment(s[..|s| - 1], separators);
      assert s[|s| - 1 - |r|..] == s[..|s| - 1][|s| - 1 - |r|..] + [s[|s| - 1]];
      r + [s[|s| - 1]]
  }

  function TrimTrailingSlashes(s: string): (r: string)
    ensures r <= s && (r == "" || r[|r| - 1] != '/')
    ensures s != "" && s[|s| - 1] != '/' ==> r == s
    ensures forall i :: |r| <= i < |s| ==> s[i] == '/'
  {
    if s != "" && s[|s| - 1] == '/' then TrimTrailingSlashes(s[..|s| - 1]) else s
  }

  /** POSIX `path.basename`. */
  function Basename(s: string): string {
    LastSegment(TrimTrailingSlashes(s), "/")
  }

  /** `slice(0, 180) || "upload.bin"`. */
  function Clip(s: string): (r: string)
    ensures AllAllowed(s) ==> SafeName(r)
    ensures 0 < |s| <= MAX_NAME ==> r == s
  {
    if s == "" then FALLBACK else if |s| <= MAX_NAME then s else s[..MAX_NAME]
  }

  /** `sanitizeFilename` of the local disk store. */
  function SanitizeLocal(filename: string): string {
    Clip(ReplaceRuns(Basename(filename), false))
  }

  /** `sanitizeKey` of the object store. */
  function SanitizeSpaces(filename: string): string {
    Clip(ReplaceRuns(LastSegment(filename, "/\\"), false))
  }

  /** What every sanitised name looks like. */
  predicate SafeName(s: string) {
    0 < |s| <= MAX_NAME && AllAllowed(s)
  }

  lemma {:induction false} ReplaceRunsKeeps(s: string)
    requires AllAllowed(s)
    ensures ReplaceRuns(s, false) == s
  {
    if s != "" {
      ReplaceRunsKeeps(s[1..]);
    }
  }

  lemma LastSegmentWhole(s: string, separators: string)
    requires forall i :: 0 <= i < |s| ==> s[i] !in separators
    ensures LastSegment(s, separators) == s
  {
  }

  lemma SafeNameHasNoSeparator(name: string)
    requires SafeName(name)
    ensures forall i :: 0 <= i < |name| ==> name[i] != '/' && name[i] != '\\'
  {
  }

  lemma SafeFixed(s: string)
    requires SafeName(s)
    ensures SanitizeLocal(s) == s && SanitizeSpaces(s) == s
  {
    hide LastSegment, TrimTrailingSlashes, ReplaceRuns;
    SafeNameHasNoSeparator(s);
    LastSegmentWhole(s, "/");
    LastSegmentWhole(s, "/\\");
    ReplaceRunsKeeps(s);
    assert Basename(s) == s;
  }

  /** A name is safe exactly when sanitising leaves it alone, in either store. */
  lemma SafeIffFixed(s: string)
    ensures SafeName(s) <==> SanitizeLocal(s) == s
    ensures SafeName(s) <==> SanitizeSpaces(s) == s
  {
    SanitizedIsSafe(s);
    if SafeName(s) {
      SafeFixed(s);
    }
  }

  lemma SanitizedIsSafe(s: string)
    ensures SafeName(SanitizeLocal(s)) && SafeName(SanitizeSpaces(s))
  {
  }

  /** Sanitising is idempotent, and one store's names pass the other's unchanged. */
  lemma SanitizeIdempotent(s: string)
    ensures SanitizeLocal(SanitizeLocal(s)) == SanitizeLocal(s) == SanitizeSpaces(SanitizeLocal(s))
    ensures SanitizeSpaces(SanitizeSpaces(s)) == SanitizeSpaces(s) == SanitizeLocal(SanitizeSpaces(s))
  {
    SanitizedIsSafe(s);
    SafeIffFixed(SanitizeLocal(s));
    SafeIffFixed(SanitizeSpaces(s));
  }

  lemma LastSegmentAgrees(s: string)
    requires '\\' !in s
    ensures LastSegment(s, "/\\") == LastSegment(s, "/")
  {
  }

  /** The stores agree on every name without a backslash and without a trailing slash. */
  lemma SanitizersAgree(s: string)
    requires '\\' !in s && (s == "" || s[|s| - 1] != '/')
    ensures SanitizeLocal(s) == SanitizeSpaces(s)
  {
    LastSegmentAgrees(s);
  }

  // ---------- what the sanitisers do to a name ----------

  /** The characters that are kept. */
  lemma AllowedCharacters(c: char)
    ensures Allowed(c)
            <==> || c in "abcdefghijklmnopqrstuvwxyz" || c in "ABCDEFGHIJKLMNOPQRSTUVWXYZ"
                 || c in "0123456789" || c in "_.-()+ "
  {
  }

  /** A text of allowed characters is kept, up to its first 180 of them; an empty one is replaced. */
  lemma AllowedIsClipped(s: string)
    requires AllAllowed(s)
    ensures SanitizeLocal(s) == SanitizeSpaces(s)
            == if s == "" then "upload.bin" else if |s| <= 180 then s else s[..180]
  {
    hide LastSegment, TrimTrailingSlashes, ReplaceRuns;
    assert forall i :: 0 <= i < |s| ==> s[i] != '/' && s[i] != '\\';
    PlainName(s);
    ReplaceRunsKeeps(s);
  }

  lemma {:induction false} ReplaceRunsSkips(bad: string, rest: string)
    requires forall i :: 0 <= i < |bad| ==> !Allowed(bad[i])
    requires rest == "" || Allowed(rest[0])
    ensures ReplaceRuns(bad + rest, true) == ReplaceRuns(rest, false)
  {
    if bad == "" {
      assert bad + rest == rest;
    } else {
      assert (bad + rest)[1..] == bad[1..] + rest;
      ReplaceRunsSkips(bad[1..], rest);
    }
  }

  /** After an allowed beginning, a whole run of other characters becomes one underscore. */
  lemma {:induction false} RunBecomesUnderscore(good: string, bad: string, rest: string)
    requires AllAllowed(good) && bad != "" && (rest == "" || Allowed(rest[0]))
    requires forall i :: 0 <= i < |bad| ==> !Allowed(bad[i])
    ensures ReplaceRuns(good + bad + rest, false) == good + "_" + ReplaceRuns(rest, false)
  {
    var s := good + bad + rest;
    if good == "" {
      assert s[1..] == bad[1..] + rest;
      ReplaceRunsSkips(bad[1..], rest);
    } else {
      assert s[1..] == good[1..] + bad + rest;
      RunBecomesUnderscore(good[1..], bad, rest);
      assert good == [good[0]] + good[1..];
    }
  }

  /** The contract of `LastSegment` leaves one answer. */
  lemma OneLastSegment(s: string, separators: string, from: nat)
    requires from <= |s| && forall i :: from <= i < |s| ==> s[i] !in separators
    requires from > 0 ==> s[from - 1] in separators
    ensures LastSegment(s, separators) == s[from..]
  {
    hide LastSegment;
    var r := LastSegment(s, separators);
    assert forall i :: |s| - |r| <= i < |s| ==> s[i] == r[i - (|s| - |r|)];
  }

  lemma TailOfJoin(start: string, name: string, k: nat)
    requires k <= |name|
    ensures (start + name)[|start| + k..] == name[k..]
    ensures |start| + k > 0 ==> (start + name)[|start| + k - 1] == if k > 0 then name[k - 1] else start[|start| - 1]
  {
  }

  lemma LastSegmentAfter(directory: string, c: char, name: string, separators: string)
    requires c in separators
    ensures LastSegment(directory + [c] + name, separators) == LastSegment(name, separators)
  {
    hide LastSegment;
    var start, r := directory + [c], LastSegment(name, separators);
    var k := |name| - |r|;
    TailOfJoin(start, name, k);
    var s, from := start + name, |start| + k;
    forall i | from <= i < |s|
      ensures s[i] !in separators
    {
      assert s[i] == s[from..][i - from];
    }
    OneLastSegment(s, separators, from);
  }

  lemma {:induction false} TrimsSlashes(s: string, slashes: string)
    requires forall i :: 0 <= i < |slashes| ==> slashes[i] == '/'
    ensures TrimTrailingSlashes(s + slashes) == TrimTrailingSlashes(s)
    decreases |slashes|
  {
    var t := s + slashes;
    if slashes == "" {
      assert t == s;
    } else {
      assert t[..|t| - 1] == s + slashes[..|slashes| - 1];
      TrimsSlashes(s, slashes[..|slashes| - 1]);
    }
  }

  /** Only the last part of a path counts: on disk after the last slash but for trailing ones, in the object store after
      the last slash or backslash, and nothing else. */
  lemma OnlyTheNameCounts(directory: string, name: string, slashes: string)
    requires forall i :: 0 <= i < |slashes| ==> slashes[i] == '/'
    ensures name != "" && name[|name| - 1] != '/' ==>
              SanitizeLocal(directory + "/" + name + slashes) == SanitizeLocal(name) == SanitizeLocal(name + slashes)
    ensures SanitizeSpaces(directory + "/" + name) == SanitizeSpaces(name)
    ensures SanitizeSpaces(directory + "\\" + name) == SanitizeSpaces(name)
  {
    hide LastSegment, TrimTrailingSlashes, ReplaceRuns, Clip;
    TrimsSlashes(name, slashes);
    TrimsSlashes(directory + "/" + name, slashes);
    LastSegmentAfter(directory, '/', name, "/");
    LastSegmentAfter(directory, '/', name, "/\\");
    LastSegmentAfter(directory, '\\', name, "/\\");
  }

  lemma NoSeparators(name: string)
    requires '/' !in name && '\\' !in name
    ensures LastSegment(name, "/") == LastSegment(name, "/\\") == name
  {
    LastSegmentWhole(name, "/");
    LastSegmentWhole(name, "/\\");
  }

  /** A name without separators is cleaned and cut in no other way. */
  lemma PlainName(name: string)
    requires '/' !in name && '\\' !in name
    ensures SanitizeLocal(name) == SanitizeSpaces(name) == Clip(ReplaceRuns(name, false))
  {
    hide LastSegment, ReplaceRuns, Clip;
    NoSeparators(name);
    assert name != "" ==> name[|name| - 1] in name;
  }

  // ---------- locations ----------

  datatype Backend = LocalDisk(root: string) | Spaces

  /** Where `save(fileId, filename, ...)` puts the bytes; `root` is already a normalised directory. */
  function Location(backend: Backend, fileId: string, filename: string): string {
    (if backend.LocalDisk? then backend.root + "/" else "") + fileId + LocationSuffix(backend, filename)
  }

  function LocationSuffix(backend: Backend, filename: string): string {
    "-" + if backend.LocalDisk? then SanitizeLocal(filename) else SanitizeSpaces(filename)
  }

  /** Files with different ids never share a location, whatever their names. */
  lemma LocationInjective(backend: Backend, f: string, name: string, g: string, other: string)
    requires IsUuid(f) && IsUuid(g)
    requires Location(backend, f, name) == Location(backend, g, other)
    ensures f == g
  {
    var directory := if backend.LocalDisk? then backend.root + "/" else "";
    IdInLocation(directory, f, LocationSuffix(backend, name));
    IdInLocation(directory, g, LocationSuffix(backend, other));
  }

  lemma IdInLocation(directory: string, f: string, suffix: string)
    ensures (directory + f + suffix)[|directory|..|directory| + |f|] == f
  {
  }

  /** The last segment of a path built from a directory and a name without separators is that name. */
  lemma LastSegmentOfJoin(root: string, name: string)
    requires '/' !in name
    ensures LastSegment(root + "/" + name, "/") == name
  {
    LastSegmentAfter(root, '/', name, "/");
    LastSegmentWhole(name, "/");
  }

  lemma JoinedLocation(root: string, fileId: string, name: string)
    requires '/' !in fileId && '/' !in name
    ensures var p := (root + "/") + fileId + ("-" + name);
            p == root + "/" + (fileId + "-" + name) && LastSegment(p, "/") == fileId + "-" + name
  {
    var entry := fileId + "-" + name;
    LastSegmentOfJoin(root, entry);
    assert (root + "/") + fileId + ("-" + name) == root + "/" + entry;
  }

  /** A location on disk is an entry of the upload directory itself, whatever the client named the file. */
  lemma LocalStaysInRoot(root: string, fileId: string, filename: string)
    requires IsUuid(fileId)
    ensures var entry := fileId + "-" + SanitizeLocal(filename);
            && Location(LocalDisk(root), fileId, filename) == root + "/" + entry
            && LastSegment(root + "/" + entry, "/") == entry
  {
    hide SanitizeLocal, SanitizeSpaces, LastSegment, IsUuid;
    var name := SanitizeLocal(filename);
    SanitizedIsSafe(filename);
    SafeNameHasNoSeparator(name);
    UuidHasNoSeparator(fileId);
    JoinedLocation(root, fileId, name);
  }

  /** In the object store the key is an entry of that form. */
  lemma SpacesKey(fileId: string, filename: string)
    ensures Location(Spaces, fileId, filename) == fileId + "-" + SanitizeSpaces(filename)
  {
    assert "" + fileId == fileId;
  }

  lemma UuidHasNoSeparator(fileId: string)
    requires IsUuid(fileId)
    ensures '/' !in fileId
  {
    assert forall i :: 0 <= i < |fileId| ==> fileId[i] == '-' || IsHex(fileId[i]);
  }
}
