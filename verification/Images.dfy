/** Image references (image.go). */
module Images {
  datatype Parts = Parts(repo: string, tag: string, digest: string)

  /** strings.LastIndex for a one-character pattern. */
  function LastIndex(s: string, c: char): (r: int)
    ensures -1 <= r < |s|
  {
    if s == [] then -1
    else if s[|s| - 1] == c then |s| - 1
    else LastIndex(s[..|s| - 1], c)
  }

  function IndexFrom(s: string, c: char, from: nat): (r: int)
    requires from <= |s|
    ensures r == -1 || from <= r < |s|
    decreases |s| - from
  {
    if from == |s| then -1 else if s[from] == c then from else IndexFrom(s, c, from + 1)
  }

  lemma {:induction false} LastIndexFound(s: string, c: char)
    ensures LastIndex(s, c) >= 0 ==> s[LastIndex(s, c)] == c
    ensures LastIndex(s, c) < 0 <==> c !in s
  {
    if s != [] && s[|s| - 1] != c {
      LastIndexFound(s[..|s| - 1], c);
    }
  }

  lemma {:induction false} LastIndexOfConcat(a: string, b: string, c: char)
    ensures LastIndex(a + b, c) == if LastIndex(b, c) >= 0 then |a| + LastIndex(b, c) else LastIndex(a, c)
  {
    if b == [] {
      assert a + b == a;
    } else {
      assert (a + b)[..|a + b| - 1] == a + b[..|b| - 1];
      LastIndexOfConcat(a, b[..|b| - 1], c);
    }
  }

  lemma {:induction false} IndexFound(s: string, c: char, from: nat)
    requires from <= |s|
    ensures IndexFrom(s, c, from) >= 0 ==> s[IndexFrom(s, c, from)] == c
    ensures IndexFrom(s, c, from) < 0 <==> c !in s[from..]
    decreases |s| - from
  {
    if from < |s| {
      assert s[from..] == [s[from]] + s[from + 1..];
      if s[from] != c {
        IndexFound(s, c, from + 1);
      }
    }
  }

  lemma {:induction false} IndexOfConcat(a: string, b: string, c: char, from: nat)
    requires from <= |a| && b != [] && b[0] == c
    ensures IndexFrom(a + b, c, from) == if IndexFrom(a, c, from) >= 0 then IndexFrom(a, c, from) else |a|
    decreases |a| - from
  {
    if from < |a| && a[from] != c {
      IndexOfConcat(a, b, c, from + 1);
    }
  }

  function TrimPrefix(s: string, prefix: string): (r: string) {
    if prefix <= s then s[|prefix|..] else s
  }

  /** The reference without its digest, and the digest. */
  function CutDigest(s: string): (r: (string, string)) {
    var at := LastIndex(s, '@');
    if at >= 0 then (s[..at], s[at + 1..]) else (s, "")
  }

  /** The reference without its tag, and the tag: the text after the first ':' of the last path segment. */
  function CutTag(s: string): (r: (string, string)) {
    var colon := IndexFrom(s, ':', LastIndex(s, '/') + 1);
    if colon >= 0 then (s[..colon], s[colon + 1..]) else (s, "")
  }

  /** What the spec says. */
  function Named(spec: string): (p: Parts) {
    Tagged(CutDigest(spec).0, CutDigest(spec).1)
  }

  function Tagged(named: string, digest: string): (p: Parts) {
    Parts(CutTag(named).0, CutTag(named).1, digest)
  }

  const PULLABLE := "docker-pullable://"

  /** Parts without a digest, completed from the resolved reference. A repository that does not look like
      one with a registry is replaced by the resolved one as well. */
  function Completed(p: Parts, imageID: string): (q: Parts) {
    var id := TrimPrefix(imageID, PULLABLE);
    var at := LastIndex(id, '@');
    if p.digest != "" || imageID == "" || at < 0 then p
    else Parts(if ('/' !in p.repo || '.' !in p.repo) && at > 0 then id[..at] else p.repo, p.tag, id[at + 1..])
  }

  function Split(spec: string, imageID: string): (p: Parts) {
    Completed(Named(spec), imageID)
  }

  method ColonAfter(s: string, from: int) returns (r: int)
    requires from >= -1
    ensures r == if from < |s| then IndexFrom(s, ':', from + 1) else -1
  {
    if from >= |s| {
      return -1;
    }
    for i := from + 1 to |s|
      invariant IndexFrom(s, ':', from + 1) == IndexFrom(s, ':', i)
    {
      if s[i] == ':' {
        return i;
      }
    }
    return -1;
  }

  /** The first half of SplitImage: what the spec says (image.go:8-17). */
  method SplitSpec(spec: string) returns (repo: string, tag: string, digest: string)
    ensures Parts(repo, tag, digest) == Named(spec)
  {
    digest := "";
    var s := spec;
    var at := LastIndex(s, '@');
    if at >= 0 {
      digest := s[at + 1..];
      s := s[..at];
    }
    assert Named(spec) == Tagged(s, digest);
    repo, tag := SplitTag(s);
  }

  /** The tag is cut off at the first ':' of the last path segment. */
  method SplitTag(s: string) returns (repo: string, tag: string)
    ensures (repo, tag) == CutTag(s)
  {
    repo, tag := s, "";
    var c := ColonAfter(s, LastIndex(s, '/'));
    if c >= 0 {
      tag := s[c + 1..];
      repo := s[..c];
    }
  }

  method SplitImage(spec: string, imageID: string) returns (repo: string, tag: string, digest: string)
    ensures Parts(repo, tag, digest) == Split(spec, imageID)
  {
    repo, tag, digest := SplitSpec(spec);
    if digest == "" && imageID != "" {
      var id := TrimPrefix(imageID, PULLABLE);
      var at := LastIndex(id, '@');
      if at >= 0 {
        digest := id[at + 1..];
        if '/' !in repo || '.' !in repo {
          var cand := id[..at];
          if cand != "" {
            repo := cand;
          }
        }
      }
    }
  }

  // ---- round trip ---------------------------------------------------------------------------------

  /** The printed form of a reference; an empty tag or digest is left out with its separator. */
  function Print(p: Parts): (s: string) {
    PrintTagged(p) + if p.digest == "" then "" else "@" + p.digest
  }

  function PrintTagged(p: Parts): (s: string) {
    p.repo + if p.tag == "" then "" else ":" + p.tag
  }

  function LastSegment(repo: string): (s: string) {
    repo[LastIndex(repo, '/') + 1..]
  }

  /** Parts that read back: the last '@' is the digest's, and the first ':' of the last segment the tag's. */
  predicate IsReadable(p: Parts) {
    && (if p.digest == "" then '@' !in p.repo && '@' !in p.tag else '@' !in p.digest)
    && '/' !in p.tag && ':' !in LastSegment(p.repo)
  }

  lemma Halves(a: string, c: char, b: string)
    ensures (a + ([c] + b))[..|a|] == a && (a + ([c] + b))[|a| + 1..] == b
  {
  }

  lemma CutDigestReadsBack(named: string, digest: string)
    ensures CutDigest(named + if digest == "" then "" else "@" + digest) == (named, digest)
            <==> if digest == "" then '@' !in named else '@' !in digest
  {
    if digest == "" {
      assert named + "" == named;
      LastIndexFound(named, '@');
    } else {
      LastIndexOfConcat(named, "@" + digest, '@');
      LastIndexOfConcat("@", digest, '@');
      LastIndexFound(digest, '@');
      Halves(named, '@', digest);
    }
  }

  /** Where the tag is looked for once ":" and a tag follow the repository. */
  lemma ColonOfTagged(repo: string, tag: string)
    ensures var s := repo + (":" + tag);
      var colon := IndexFrom(s, ':', LastIndex(s, '/') + 1);
      if '/' in tag then colon < 0 || colon > |repo|
      else if ':' in LastSegment(repo) then 0 <= colon < |repo|
      else colon == |repo|
  {
    var from := LastIndex(repo, '/') + 1;
    LastIndexOfConcat(repo, ":" + tag, '/');
    LastIndexOfConcat(":", tag, '/');
    LastIndexFound(tag, '/');
    if '/' !in tag {
      IndexFound(repo, ':', from);
      IndexOfConcat(repo, ":" + tag, ':', from);
    }
  }

  lemma CutTagOfTagged(repo: string, tag: string)
    ensures CutTag(repo + (":" + tag)) == (repo, tag) <==> '/' !in tag && ':' !in LastSegment(repo)
  {
    var s := repo + (":" + tag);
    var colon := IndexFrom(s, ':', LastIndex(s, '/') + 1);
    ColonOfTagged(repo, tag);
    Halves(repo, ':', tag);
    assert colon != |repo| ==> |CutTag(s).0| != |repo|;
  }

  lemma CutTagReadsBack(repo: string, tag: string)
    ensures CutTag(repo + if tag == "" then "" else ":" + tag) == (repo, tag)
            <==> '/' !in tag && ':' !in LastSegment(repo)
  {
    if tag == "" {
      assert repo + "" == repo;
      IndexFound(repo, ':', LastIndex(repo, '/') + 1);
    } else {
      CutTagOfTagged(repo, tag);
    }
  }

  lemma Rejoin(s: string, i: nat)
    requires i < |s|
    ensures s == s[..i] + ([s[i]] + s[i + 1..])
  {
  }

  /** The cut puts the separator it found back between its halves. */
  lemma DigestRejoins(s: string)
    ensures s == CutDigest(s).0 + if LastIndex(s, '@') >= 0 then "@" + CutDigest(s).1 else ""
  {
    LastIndexFound(s, '@');
    if LastIndex(s, '@') >= 0 {
      Rejoin(s, LastIndex(s, '@'));
    } else {
      assert s + "" == s;
    }
  }

  lemma TagShortens(s: string)
    ensures |s| >= |CutTag(s).0| + if CutTag(s).1 == "" then 0 else 1 + |CutTag(s).1|
  {
  }

  lemma CutIsPrintedBack(p: Parts, named: string)
    requires CutDigest(Print(p)) == (named, p.digest) && CutTag(named) == (p.repo, p.tag)
    ensures named == PrintTagged(p)
  {
    DigestRejoins(Print(p));
    TagShortens(named);
    assert |named| >= |PrintTagged(p)|;
    if p.digest != "" {
      Halves(named, '@', p.digest);
      Halves(PrintTagged(p), '@', p.digest);
    }
  }

  lemma InConcat(repo: string, tag: string, c: char)
    ensures c in repo + (":" + tag) <==> c in repo || c == ':' || c in tag
  {
  }

  /** Without a resolved reference, the printed form of parts splits into those parts exactly when they are
      readable. */
  lemma SplitInvertsPrint(p: Parts)
    ensures Split(Print(p), "") == p <==> IsReadable(p)
  {
    var named := PrintTagged(p);
    CutDigestReadsBack(named, p.digest);
    CutTagReadsBack(p.repo, p.tag);
    InConcat(p.repo, p.tag, '@');
    if Split(Print(p), "") == p {
      CutIsPrintedBack(p, CutDigest(Print(p)).0);
    }
  }

  lemma TrimmedHasNoAt(imageID: string)
    requires '@' !in imageID
    ensures LastIndex(TrimPrefix(imageID, PULLABLE), '@') < 0
  {
    LastIndexFound(TrimPrefix(imageID, PULLABLE), '@');
  }

  /** A spec that is pinned to a digest is read as it stands, whatever image was resolved; and so is every spec
      when the resolved reference has no digest. */
  lemma SpecStandsAlone(spec: string, imageID: string)
    requires Split(spec, "").digest != "" || '@' !in imageID
    ensures Split(spec, imageID) == Split(spec, "")
  {
    if '@' !in imageID {
      TrimmedHasNoAt(imageID);
    }
  }

  /** So the printed form of readable parts gives them back. */
  lemma PrintedStandsAlone(p: Parts, imageID: string)
    requires IsReadable(p) && (p.digest != "" || '@' !in imageID)
    ensures Split(Print(p), imageID) == p
  {
    SplitInvertsPrint(p);
    SpecStandsAlone(Print(p), imageID);
  }

  /** The reference that the container runtime reports, with or without its scheme. */
  predicate Resolves(imageID: string, resolvedRepo: string, digest: string) {
    && '@' !in digest
    && (imageID == "docker-pullable://" + (resolvedRepo + ("@" + digest))
        || (imageID == resolvedRepo + ("@" + digest) && !("docker-pullable://" <= imageID)))
  }

  /** When the spec has no digest, the resolved reference supplies it and, for a spec whose repository does
      not name a registry, the repository too; the tag is always the spec's. */
  lemma ResolvedReferenceCompletes(spec: string, imageID: string, resolvedRepo: string, digest: string)
    requires Split(spec, "").digest == "" && Resolves(imageID, resolvedRepo, digest)
    ensures var p := Split(spec, "");
      Split(spec, imageID)
      == Parts(if ('/' in p.repo && '.' in p.repo) || resolvedRepo == "" then p.repo else resolvedRepo, p.tag, digest)
  {
    CutOfResolved(resolvedRepo, digest);
    TrimsPullable(resolvedRepo + ("@" + digest));
  }

  lemma CutOfResolved(resolvedRepo: string, digest: string)
    requires '@' !in digest
    ensures var id := resolvedRepo + ("@" + digest);
      LastIndex(id, '@') == |resolvedRepo| && id[..|resolvedRepo|] == resolvedRepo && id[|resolvedRepo| + 1..] == digest
  {
    LastIndexOfConcat(resolvedRepo, "@" + digest, '@');
    LastIndexOfConcat("@", digest, '@');
    LastIndexFound(digest, '@');
    Halves(resolvedRepo, '@', digest);
  }

  lemma TrimsPullable(id: string)
    ensures TrimPrefix(PULLABLE + id, PULLABLE) == id
  {
    assert (PULLABLE + id)[|PULLABLE|..] == id;
  }

  // ---- registry -----------------------------------------------------------------------------------

  predicate NamesRegistry(first: string) {
    '.' in first || ':' in first || first == "localhost"
  }

  /** (image, registry): the first path segment is a registry when it looks like a host. */
  function SplitName(full: string): (r: (string, string)) {
    var i := IndexFrom(full, '/', 0);
    if i > 0 && NamesRegistry(full[..i]) then
      (if full[..i] == "docker.io" then TrimPrefix(full[i + 1..], "library/") else full[i + 1..], full[..i])
    else (full, "")
  }

  method SplitImageName(full: string) returns (image: string, registry: string)
    ensures (image, registry) == SplitName(full)
  {
    registry := "";
    var rest := full;
    var i := IndexFrom(rest, '/', 0);
    if i > 0 {
      var first := rest[..i];
      if '.' in first || ':' in first || first == "localhost" {
        registry := first;
        rest := rest[i + 1..];
      }
    }
    if registry == "docker.io" {
      rest := TrimPrefix(rest, "library/");
    }
    image := rest;
  }

  /** The first path segment of full ends at i and looks like a host. */
  ghost predicate IsHostEnd(full: string, i: int) {
    && 0 < i < |full| && full[i] == '/' && '/' !in full[..i]
    && ('.' in full[..i] || ':' in full[..i] || full[..i] == "localhost")
  }

  /** registry and image are the two parts of full: nothing before a name without a host, one "library/" less
      after docker.io. */
  ghost predicate IsSplitAtHost(full: string, image: string, registry: string) {
    && (registry == "" ==> image == full && forall i :: !IsHostEnd(full, i))
    && (registry != "" ==>
          && IsHostEnd(full, |registry|) && registry == full[..|registry|]
          && image == if registry == "docker.io" && "library/" <= full[|registry| + 1..]
                      then full[|registry| + 1 + |"library/"|..] else full[|registry| + 1..])
  }

  /** Which names have a registry, and what image is then. */
  lemma NameSplitsAtHost(full: string)
    ensures IsSplitAtHost(full, SplitName(full).0, SplitName(full).1)
  {
    var i := IndexFrom(full, '/', 0);
    IndexFound(full, '/', 0);
    assert full[0..] == full;
    forall k | 0 <= k < |full| && full[k] == '/' && '/' !in full[..k] ensures k == i {
      FirstSlashIs(full, k);
    }
    if i > 0 && NamesRegistry(full[..i]) {
      NoSlashBefore(full, i);
    }
  }

  lemma FirstSlashIs(full: string, k: nat)
    requires k < |full| && full[k] == '/' && '/' !in full[..k]
    ensures IndexFrom(full, '/', 0) == k
  {
    FirstIsNotAfter(full, '/', 0, k);
    IndexFound(full, '/', 0);
    InPrefix(full, IndexFrom(full, '/', 0), k);
  }

  lemma InPrefix(s: string, i: int, k: nat)
    requires 0 <= i <= k <= |s|
    ensures i < k ==> s[i] in s[..k]
  {
    if i < k {
      assert s[..k][i] == s[i];
    }
  }

  /** Registry and image join to the full name again, up to one "library/" of docker.io; without a registry
      the image is the full name. */
  lemma NameRejoins(full: string)
    ensures var (image, registry) := SplitName(full);
      && (registry == "" ==> image == full)
      && (registry != "" ==> '/' !in registry && ('.' in registry || ':' in registry || registry == "localhost"))
      && (registry != "" ==>
            full == registry + ("/" + image) ||
            (registry == "docker.io" && full == registry + ("/" + "library/") + image))
  {
    var i := IndexFrom(full, '/', 0);
    if i > 0 && NamesRegistry(full[..i]) {
      RegistryRejoins(full, i);
    }
  }

  lemma RegistryRejoins(full: string, i: nat)
    requires i == IndexFrom(full, '/', 0)
    ensures '/' !in full[..i] && full == full[..i] + ("/" + full[i + 1..])
    ensures "library/" <= full[i + 1..] ==>
              full == full[..i] + ("/" + "library/") + TrimPrefix(full[i + 1..], "library/")
  {
    IndexFound(full, '/', 0);
    Rejoin(full, i);
    NoSlashBefore(full, i);
    if "library/" <= full[i + 1..] {
      PrefixRejoins(full[..i], full[i + 1..], "library/");
    }
  }

  lemma {:induction false} NoSlashBefore(full: string, i: nat)
    requires i <= |full| && (IndexFrom(full, '/', 0) == i || IndexFrom(full, '/', 0) < 0)
    ensures '/' !in full[..i]
  {
    if '/' in full[..i] {
      var k :| 0 <= k < i && full[k] == '/';
      FirstIsNotAfter(full, '/', 0, k);
    }
  }

  lemma {:induction false} FirstIsNotAfter(s: string, c: char, from: nat, k: nat)
    requires from <= k < |s| && s[k] == c
    ensures 0 <= IndexFrom(s, c, from) <= k
    decreases k - from
  {
    if s[from] != c {
      FirstIsNotAfter(s, c, from + 1, k);
    }
  }

  lemma PrefixRejoins(first: string, rest: string, prefix: string)
    requires prefix <= rest
    ensures first + ("/" + rest) == first + ("/" + prefix) + TrimPrefix(rest, prefix)
  {
  }

  /** Conversely, a host-like first segment is always taken as the registry. */
  lemma JoinedNameSplits(registry: string, image: string)
    requires ('.' in registry || ':' in registry || registry == "localhost") && '/' !in registry
    requires registry != "docker.io"
    ensures SplitName(registry + "/" + image) == (image, registry)
    ensures SplitName("docker.io" + "/" + image) == (TrimPrefix(image, "library/"), "docker.io")
  {
    FirstSlash(registry, image);
    FirstSlash("docker.io", image);
  }

  lemma FirstSlash(first: string, rest: string)
    requires '/' !in first
    ensures IndexFrom(first + "/" + rest, '/', 0) == |first|
    ensures (first + "/" + rest)[..|first|] == first && (first + "/" + rest)[|first| + 1..] == rest
  {
    assert first + "/" + rest == first + ("/" + rest);
    IndexFound(first, '/', 0);
    IndexOfConcat(first, "/" + rest, '/', 0);
    Halves(first, '/', rest);
  }
}
