/**
 Where a restore places the parts of the backups: every host hands out its data paths in turn, and a part
 keeps the path it was given first through all incremental backups.
 */
module RestorePlacement {

  type Host = string

  /** A part of a space. */
  type Part = string

  type Path = string

  datatype Backup = Backup(name: string, parts: seq<Part>)

  /** One download: the checkpoint of `part` in `backup` goes to `path` on `host`. */
  datatype Download = Download(host: Host, part: Part, path: Path, backup: string)

  // ------------------------------------------------------------------ the selector of one host

  function Following(i: nat, n: nat): nat { if i + 1 == n then 0 else i + 1 }

  /** The index from which the next path is taken after `k` paths were taken. */
  function Turn(k: nat, n: nat): nat {
    if k == 0 then 0 else Following(Turn(k - 1, n), n)
  }

  class PathSelector {
    const paths: seq<Path>
    var index: nat

    predicate Valid() reads this { index < |paths| }

    constructor (paths: seq<Path>)
      requires paths != []
      ensures Valid() && this.paths == paths && index == 0
    {
      this.paths := paths;
      index := 0;
    }

    method EvenlyGet() returns (path: Path)
      requires Valid()
      modifies this
      ensures Valid() && path == paths[old(index)] && index == Following(old(index), |paths|)
    {
      path := paths[index];
      index := (index + 1) % |paths|;
    }
  }

  // ------------------------------------------------------------------ the specification

  /** The parts that `host` receives, in the order in which they first appear. */
  function FirstParts(downloads: seq<Download>, host: Host): seq<Part> {
    if downloads == [] then []
    else
      var before := FirstParts(downloads[..|downloads| - 1], host);
      var last := downloads[|downloads| - 1];
      if last.host == host && last.part !in before then before + [last.part] else before
  }

  /** The position of `x` in `s`, or the length. */
  function Position(s: seq<Part>, x: Part): nat {
    if s == [] || s[0] == x then 0 else 1 + Position(s[1..], x)
  }

  lemma {:induction false} PositionIn(s: seq<Part>, x: Part)
    ensures Position(s, x) <= |s|
    ensures Position(s, x) < |s| <==> x in s
    ensures x in s ==> s[Position(s, x)] == x
  {
    if s != [] && s[0] != x {
      PositionIn(s[1..], x);
    }
  }

  lemma {:induction false} PositionAppended(s: seq<Part>, y: Part, x: Part)
    requires y !in s
    ensures Position(s + [y], x) == if x in s then Position(s, x) else if x == y then |s| else |s| + 1
  {
    if s != [] && s[0] != x {
      assert (s + [y])[1..] == s[1..] + [y];
      PositionAppended(s[1..], y, x);
    }
  }

  /** The k-th new part of a host goes to its k-th data path, round and round. */
  function Place(downloads: seq<Download>, paths: seq<Path>, host: Host, part: Part): Path
    requires paths != []
  {
    paths[Position(FirstParts(downloads, host), part) % |paths|]
  }

  /** Every download goes to the place of its part. */
  ghost predicate Placed(downloads: seq<Download>, paths: map<Host, seq<Path>>) {
    forall i :: 0 <= i < |downloads| ==>
      && downloads[i].host in paths && paths[downloads[i].host] != []
      && downloads[i].path == Place(downloads, paths[downloads[i].host], downloads[i].host, downloads[i].part)
  }

  /** What is downloaded: each part of each backup to each of the hosts that take it. */
  datatype Request = Request(host: Host, part: Part, backup: string)

  function Asked(d: Download): Request { Request(d.host, d.part, d.backup) }

  function AllAsked(downloads: seq<Download>): seq<Request> {
    if downloads == [] then [] else AllAsked(downloads[..|downloads| - 1]) + [Asked(downloads[|downloads| - 1])]
  }

  function HostsOf(parts: map<Part, seq<Host>>, part: Part): seq<Host> {
    if part in parts then parts[part] else []
  }

  function ForHosts(hosts: seq<Host>, part: Part, backup: string): seq<Request> {
    if hosts == [] then [] else ForHosts(hosts[..|hosts| - 1], part, backup) + [Request(hosts[|hosts| - 1], part, backup)]
  }

  function ForParts(ps: seq<Part>, parts: map<Part, seq<Host>>, backup: string): seq<Request> {
    if ps == [] then []
    else
      var last := ps[|ps| - 1];
      ForParts(ps[..|ps| - 1], parts, backup) + ForHosts(HostsOf(parts, last), last, backup)
  }

  function ForBackups(backups: seq<Backup>, parts: map<Part, seq<Host>>): seq<Request> {
    if backups == [] then []
    else
      var last := backups[|backups| - 1];
      ForBackups(backups[..|backups| - 1], parts) + ForParts(last.parts, parts, last.name)
  }

  /** One more host, part or backup adds its requests at the end. */
  lemma HostsStep(before: seq<Request>, hosts: seq<Host>, i: nat, part: Part, backup: string)
    requires i < |hosts|
    ensures before + ForHosts(hosts[..i], part, backup) + [Request(hosts[i], part, backup)] == before + ForHosts(hosts[..i + 1], part, backup)
  {
    assert hosts[..i + 1][..i] == hosts[..i];
  }

  lemma PartsStep(before: seq<Request>, ps: seq<Part>, i: nat, parts: map<Part, seq<Host>>, backup: string)
    requires i < |ps|
    ensures before + ForParts(ps[..i], parts, backup) + ForHosts(HostsOf(parts, ps[i]), ps[i], backup)
         == before + ForParts(ps[..i + 1], parts, backup)
  {
    assert ps[..i + 1][..i] == ps[..i];
  }

  lemma BackupsStep(backups: seq<Backup>, i: nat, parts: map<Part, seq<Host>>)
    requires i < |backups|
    ensures ForBackups(backups[..i], parts) + ForParts(backups[i].parts, parts, backups[i].name) == ForBackups(backups[..i + 1], parts)
  {
    assert backups[..i + 1][..i] == backups[..i];
  }

  // ------------------------------------------------------------------ one more download

  lemma FirstPartsAfter(downloads: seq<Download>, d: Download, host: Host)
    ensures FirstParts(downloads + [d], host)
         == var before := FirstParts(downloads, host);
            if d.host == host && d.part !in before then before + [d.part] else before
  {
    assert (downloads + [d])[..|downloads|] == downloads;
  }

  /** A part that has a place keeps it, and a new one gets the path whose turn it is. */
  lemma PlaceAfter(downloads: seq<Download>, d: Download, paths: seq<Path>, host: Host, part: Part)
    requires paths != []
    ensures part in FirstParts(downloads, host) ==>
              Place(downloads + [d], paths, host, part) == Place(downloads, paths, host, part)
    ensures host == d.host && part == d.part && part !in FirstParts(downloads, host) ==>
              Place(downloads + [d], paths, host, part) == paths[|FirstParts(downloads, host)| % |paths|]
  {
    FirstPartsAfter(downloads, d, host);
    if d.part !in FirstParts(downloads, host) {
      PositionAppended(FirstParts(downloads, host), d.part, part);
    }
  }

  lemma NextTurn(k: nat, n: nat)
    requires n > 0
    ensures (k % n + 1) % n == (k + 1) % n
    ensures (k + 1) % n == if k % n == n - 1 then 0 else k % n + 1
    ensures (k + 1) / n == if k % n == n - 1 then k / n + 1 else k / n
  {
    var q, r := k / n, k % n;
    assert k == q * n + r;
    if r == n - 1 {
      assert k + 1 == (q + 1) * n;
      Division(k + 1, n, q + 1, 0);
      Division(n, n, 1, 0);
    } else {
      Division(k + 1, n, q, r + 1);
      Division(r + 1, n, 0, r + 1);
    }
  }

  lemma Division(k: nat, n: nat, q: nat, r: nat)
    requires r < n && k == q * n + r
    ensures k / n == q && k % n == r
  {
    var e := k / n;
    Euclid(k, n);
    Closer(n, q, e);
    Closer(n, e, q);
  }

  lemma Euclid(k: nat, n: nat)
    requires n > 0
    ensures k == (k / n) * n + k % n && 0 <= k % n < n
  {
  }

  lemma Closer(n: nat, a: nat, b: nat)
    ensures a < b ==> a * n + n <= b * n
  {
    if a < b {
      NotNegative(b - a - 1, n);
      assert b * n == a * n + n + (b - a - 1) * n;
    }
  }

  lemma NotNegative(m: nat, n: nat)
    ensures m * n >= 0
  {
  }

  lemma {:induction false} TurnIsRemainder(k: nat, n: nat)
    requires n > 0
    ensures Turn(k, n) == k % n
  {
    if k == 0 {
      Division(0, n, 0, 0);
    } else {
      TurnIsRemainder(k - 1, n);
      Euclid(k - 1, n);
      OneFurther(k - 1, n, (k - 1) / n, (k - 1) % n);
    }
  }

  /** The remainder of the next number follows that of this one. */
  lemma OneFurther(k: nat, n: nat, q: nat, r: nat)
    requires r < n && k == q * n + r
    ensures (k + 1) % n == Following(r, n)
  {
    if r + 1 == n {
      NextMultiple(q, n);
      Division(k + 1, n, q + 1, 0);
    } else {
      Division(k + 1, n, q, r + 1);
    }
  }

  lemma NextMultiple(q: nat, n: nat)
    ensures q * n + n == (q + 1) * n
  {
  }

  lemma TurnAfter(downloads: seq<Download>, d: Download, n: nat, host: Host)
    ensures
      var turn := Turn(|FirstParts(downloads, host)|, n);
      Turn(|FirstParts(downloads + [d], host)|, n)
      == if d.host == host && d.part !in FirstParts(downloads, host) then Following(turn, n) else turn
  {
    FirstPartsAfter(downloads, d, host);
  }

  /** The map of data paths agrees with the specification, and every download with the map. */
  ghost predicate Consistent(downloads: seq<Download>, dataPathMap: map<(Host, Part), Path>, paths: map<Host, seq<Path>>) {
    && (forall h :: h in paths ==> paths[h] != [])
    && (forall h, p :: (h, p) in dataPathMap <==> h in paths && p in FirstParts(downloads, h))
    && (forall h, p :: (h, p) in dataPathMap ==> dataPathMap[(h, p)] == Place(downloads, paths[h], h, p))
    && (forall i :: 0 <= i < |downloads| ==>
          && (downloads[i].host, downloads[i].part) in dataPathMap
          && downloads[i].path == dataPathMap[(downloads[i].host, downloads[i].part)])
  }

  lemma ConsistentAfter(downloads: seq<Download>, dataPathMap: map<(Host, Part), Path>, paths: map<Host, seq<Path>>, d: Download)
    requires Consistent(downloads, dataPathMap, paths) && d.host in paths
    requires (d.host, d.part) in dataPathMap ==> d.path == dataPathMap[(d.host, d.part)]
    requires (d.host, d.part) !in dataPathMap ==> d.path == paths[d.host][|FirstParts(downloads, d.host)| % |paths[d.host]|]
    ensures Consistent(downloads + [d], dataPathMap[(d.host, d.part) := d.path], paths)
  {
    var all, places := downloads + [d], dataPathMap[(d.host, d.part) := d.path];
    forall h, p ensures (h, p) in places <==> h in paths && p in FirstParts(all, h) {
      FirstPartsAfter(downloads, d, h);
    }
    forall h, p | (h, p) in places ensures places[(h, p)] == Place(all, paths[h], h, p) {
      PlaceAfter(downloads, d, paths[h], h, p);
    }
  }

  lemma ConsistentIsPlaced(downloads: seq<Download>, dataPathMap: map<(Host, Part), Path>, paths: map<Host, seq<Path>>)
    requires Consistent(downloads, dataPathMap, paths)
    ensures Placed(downloads, paths)
  {
    forall i | 0 <= i < |downloads|
      ensures downloads[i].host in paths && paths[downloads[i].host] != []
      ensures downloads[i].path == Place(downloads, paths[downloads[i].host], downloads[i].host, downloads[i].part)
    {
      assert (downloads[i].host, downloads[i].part) in dataPathMap;
    }
  }

  // ------------------------------------------------------------------ the loops

  class RestoreAgent {
    const selectors: map<Host, PathSelector>
    var dataPathMap: map<(Host, Part), Path>
    var downloads: seq<Download>

    constructor (selectors: map<Host, PathSelector>)
      ensures this.selectors == selectors && dataPathMap == map[] && downloads == []
    {
      this.selectors := selectors;
      dataPathMap := map[];
      downloads := [];
    }

    function Paths(): map<Host, seq<Path>> {
      map h | h in selectors :: selectors[h].paths
    }

    /** Hosts do not share selectors, and each selector stands at the path of the next new part. */
    ghost predicate Valid() reads this, selectors.Values {
      && Separate()
      && (forall h :: h in selectors ==> InTurn(selectors[h], FirstParts(downloads, h)))
      && Consistent(downloads, dataPathMap, Paths())
    }

    static ghost predicate InTurn(s: PathSelector, parts: seq<Part>)
      reads s
    {
      s.paths != [] && s.index == Turn(|parts|, |s.paths|)
    }

    predicate Separate() {
      forall g, h :: g in selectors && h in selectors && g != h ==> selectors[g] != selectors[h]
    }

    /** The path a part has been given, or the next one of its host. */
    method PathFor(host: Host, part: Part) returns (path: Path)
      requires Separate() && host in selectors && selectors[host].Valid()
      modifies this`dataPathMap, selectors[host]
      ensures path == if (host, part) in old(dataPathMap) then old(dataPathMap)[(host, part)] else selectors[host].paths[old(selectors[host].index)]
      ensures dataPathMap == old(dataPathMap)[(host, part) := path]
      ensures selectors[host].index
           == if (host, part) in old(dataPathMap) then old(selectors[host].index) else Following(old(selectors[host].index), |selectors[host].paths|)
    {
      if (host, part) in dataPathMap {
        path := dataPathMap[(host, part)];
        assert dataPathMap == dataPathMap[(host, part) := path];
      } else {
        path := selectors[host].EvenlyGet();
        dataPathMap := dataPathMap[(host, part) := path];
      }
    }

    /** One pass of the inner loop. */
    method DownloadPart(host: Host, part: Part, backup: string)
      requires Valid() && host in selectors
      modifies this, selectors.Values
      ensures Valid() && AllAsked(downloads) == old(AllAsked(downloads)) + [Request(host, part, backup)]
    {
      assert InTurn(selectors[host], FirstParts(downloads, host));
      TurnIsRemainder(|FirstParts(downloads, host)|, |selectors[host].paths|);
      var path := PathFor(host, part);
      var d := Download(host, part, path, backup);
      ConsistentAfter(old(downloads), old(dataPathMap), Paths(), d);
      downloads := downloads + [d];
      assert downloads[..|downloads| - 1] == old(downloads);
      forall h | h in selectors ensures InTurn(selectors[h], FirstParts(downloads, h)) {
        assert old(InTurn(selectors[h], FirstParts(downloads, h)));
        TurnAfter(old(downloads), d, |selectors[h].paths|, h);
      }
    }

    /** Every part of every backup is downloaded to all its hosts. */
    method DownloadStorageData(backups: seq<Backup>, parts: map<Part, seq<Host>>)
      requires Valid() && downloads == []
      requires forall p :: p in parts ==> forall i :: 0 <= i < |parts[p]| ==> parts[p][i] in selectors
      modifies this, selectors.Values
      ensures AllAsked(downloads) == ForBackups(backups, parts)
      ensures Placed(downloads, Paths())
      ensures OnePathEach(downloads)
      ensures forall h :: h in selectors && NoDuplicates(selectors[h].paths) ==> Even(downloads, h, selectors[h].paths)
    {
      for b := 0 to |backups|
        invariant Valid()
        invariant AllAsked(downloads) == ForBackups(backups[..b], parts)
      {
        BackupsStep(backups, b, parts);
        DownloadBackup(backups[b], parts);
      }
      assert backups[..|backups|] == backups;
      ConsistentIsPlaced(downloads, dataPathMap, Paths());
      forall h | h in selectors && NoDuplicates(selectors[h].paths) ensures Even(downloads, h, selectors[h].paths) {
        assert InTurn(selectors[h], FirstParts(downloads, h));
        EvenSpread(downloads, Paths(), h);
      }
    }

    method DownloadBackup(backup: Backup, parts: map<Part, seq<Host>>)
      requires Valid()
      requires forall p :: p in parts ==> forall i :: 0 <= i < |parts[p]| ==> parts[p][i] in selectors
      modifies this, selectors.Values
      ensures Valid() && AllAsked(downloads) == old(AllAsked(downloads)) + ForParts(backup.parts, parts, backup.name)
    {
      var infos := backup.parts;
      ghost var before := AllAsked(downloads);
      for n := 0 to |infos|
        invariant Valid()
        invariant AllAsked(downloads) == before + ForParts(infos[..n], parts, backup.name)
      {
        PartsStep(before, infos, n, parts, backup.name);
        DownloadToHosts(HostsOf(parts, infos[n]), infos[n], backup.name);
      }
      assert infos[..|infos|] == infos;
    }

    method DownloadToHosts(hosts: seq<Host>, part: Part, backup: string)
      requires Valid()
      requires forall i :: 0 <= i < |hosts| ==> hosts[i] in selectors
      modifies this, selectors.Values
      ensures Valid() && AllAsked(downloads) == old(AllAsked(downloads)) + ForHosts(hosts, part, backup)
    {
      ghost var before := AllAsked(downloads);
      for i := 0 to |hosts|
        invariant Valid()
        invariant AllAsked(downloads) == before + ForHosts(hosts[..i], part, backup)
      {
        HostsStep(before, hosts, i, part, backup);
        DownloadPart(hosts[i], part, backup);
      }
      assert hosts[..|hosts|] == hosts;
    }
  }

  // ------------------------------------------------------------------ what the placement guarantees

  /** Through all backups, a part of a host is kept on a single data path. */
  ghost predicate OnePathEach(downloads: seq<Download>) {
    forall i, j :: 0 <= i < |downloads| && 0 <= j < |downloads|
        && downloads[i].host == downloads[j].host && downloads[i].part == downloads[j].part
      ==> downloads[i].path == downloads[j].path
  }

  /** The parts that were downloaded to this path of the host. */
  function PartsOn(downloads: seq<Download>, host: Host, path: Path): set<Part> {
    set i | 0 <= i < |downloads| && downloads[i].host == host && downloads[i].path == path :: downloads[i].part
  }

  /** On any two data paths of the host the numbers of parts differ by at most one, earlier paths having no fewer. */
  ghost predicate Even(downloads: seq<Download>, host: Host, paths: seq<Path>) {
    forall p, q :: 0 <= p < q < |paths| ==>
      |PartsOn(downloads, host, paths[q])| <= |PartsOn(downloads, host, paths[p])| <= |PartsOn(downloads, host, paths[q])| + 1
  }

  /** The parts of `parts` that are placed on `path`. */
  function HeldOn(parts: seq<Part>, paths: seq<Path>, path: Path): set<Part>
    requires paths != []
  {
    set x | x in parts && paths[Position(parts, x) % |paths|] == path
  }

  ghost predicate NoDuplicates(s: seq<string>) {
    forall i, j :: 0 <= i < j < |s| ==> s[i] != s[j]
  }

  lemma {:induction false} FirstPartsDistinct(downloads: seq<Download>, host: Host)
    ensures NoDuplicates(FirstParts(downloads, host))
  {
    if downloads != [] {
      FirstPartsDistinct(downloads[..|downloads| - 1], host);
    }
  }

  /** The parts of a host are the ones downloaded to it. */
  lemma {:induction false} FirstPartsAreDownloaded(downloads: seq<Download>, host: Host, x: Part)
    ensures x in FirstParts(downloads, host)
      <==> exists i :: 0 <= i < |downloads| && downloads[i].host == host && downloads[i].part == x
  {
    if downloads != [] {
      var n := |downloads| - 1;
      FirstPartsAreDownloaded(downloads[..n], host, x);
      if exists i :: 0 <= i < |downloads| && downloads[i].host == host && downloads[i].part == x {
        var i :| 0 <= i < |downloads| && downloads[i].host == host && downloads[i].part == x;
        assert i < n ==> downloads[..n][i] == downloads[i];
      }
    }
  }

  /** How many of `k` parts, handed out round and round to `n` paths, the path of index `p` receives. */
  function Share(k: nat, n: nat, p: nat): nat
    requires p < n
  {
    k / n + if p < k % n then 1 else 0
  }

  lemma {:induction false} HeldIsShare(parts: seq<Part>, paths: seq<Path>, p: nat)
    requires NoDuplicates(parts) && NoDuplicates(paths) && p < |paths|
    ensures |HeldOn(parts, paths, paths[p])| == Share(|parts|, |paths|, p)
  {
    if parts != [] {
      var k := |parts| - 1;
      var rest, last := parts[..k], parts[k];
      HeldIsShare(rest, paths, p);
      ShareOfNext(k, |paths|, p);
      assert parts == rest + [last];
      OneMoreHeld(rest, last, paths, p, k % |paths|);
    }
  }

  lemma OneMoreHeld(rest: seq<Part>, last: Part, paths: seq<Path>, p: nat, turn: nat)
    requires NoDuplicates(paths) && p < |paths| && last !in rest && turn < |paths| && turn == |rest| % |paths|
    ensures |HeldOn(rest + [last], paths, paths[p])| == |HeldOn(rest, paths, paths[p])| + if turn == p then 1 else 0
  {
    HeldAfter(rest, last, paths, paths[p]);
  }

  lemma ShareOfNext(k: nat, n: nat, p: nat)
    requires p < n
    ensures Share(k + 1, n, p) == Share(k, n, p) + if k % n == p then 1 else 0
  {
    NextTurn(k, n);
  }

  lemma HeldAfter(rest: seq<Part>, last: Part, paths: seq<Path>, path: Path)
    requires paths != [] && last !in rest
    ensures HeldOn(rest + [last], paths, path)
         == HeldOn(rest, paths, path) + if paths[|rest| % |paths|] == path then {last} else {}
    ensures last !in HeldOn(rest, paths, path)
  {
    forall x | x in rest + [last] ensures Position(rest + [last], x) == if x in rest then Position(rest, x) else |rest| {
      PositionAppended(rest, last, x);
    }
  }

  /** What was downloaded to a path is what the round-robin rule puts there. */
  lemma PartsOnIsHeld(downloads: seq<Download>, paths: map<Host, seq<Path>>, host: Host, path: Path)
    requires Placed(downloads, paths) && host in paths && paths[host] != []
    ensures PartsOn(downloads, host, path) == HeldOn(FirstParts(downloads, host), paths[host], path)
  {
    forall x ensures x in PartsOn(downloads, host, path) <==> x in HeldOn(FirstParts(downloads, host), paths[host], path) {
      FirstPartsAreDownloaded(downloads, host, x);
    }
  }

  /** Each data path of a host receives an even share of the parts downloaded to it. */
  lemma PathShare(downloads: seq<Download>, paths: map<Host, seq<Path>>, host: Host, p: nat)
    requires Placed(downloads, paths) && host in paths && NoDuplicates(paths[host]) && p < |paths[host]|
    ensures |PartsOn(downloads, host, paths[host][p])| == Share(|FirstParts(downloads, host)|, |paths[host]|, p)
  {
    PartsOnIsHeld(downloads, paths, host, paths[host][p]);
    FirstPartsDistinct(downloads, host);
    HeldIsShare(FirstParts(downloads, host), paths[host], p);
  }

  lemma EvenSpread(downloads: seq<Download>, paths: map<Host, seq<Path>>, host: Host)
    requires Placed(downloads, paths) && host in paths && NoDuplicates(paths[host])
    ensures Even(downloads, host, paths[host])
  {
    var here := paths[host];
    forall p, q | 0 <= p < q < |here|
      ensures |PartsOn(downloads, host, here[q])| <= |PartsOn(downloads, host, here[p])| <= |PartsOn(downloads, host, here[q])| + 1
    {
      EvenPair(downloads, paths, host, p, q);
    }
  }

  lemma EvenPair(downloads: seq<Download>, paths: map<Host, seq<Path>>, host: Host, p: nat, q: nat)
    requires Placed(downloads, paths) && host in paths && NoDuplicates(paths[host]) && p < q < |paths[host]|
    ensures
      var on, off := |PartsOn(downloads, host, paths[host][p])|, |PartsOn(downloads, host, paths[host][q])|;
      off <= on <= off + 1
  {
    PathShare(downloads, paths, host, p);
    PathShare(downloads, paths, host, q);
  }
}
