/**
 What a restore asks for: every part of every backup on every host that is to have the part, and nothing twice.
 */
module RestoreRequests {
  import opened RestorePlacement

  /** Some backup of this name has the part, and the host is one of those that take it. */
  ghost predicate Due(backups: seq<Backup>, parts: map<Part, seq<Host>>, r: Request) {
    exists i :: 0 <= i < |backups| && DueFrom(backups[i], parts, r)
  }

  predicate DueFrom(b: Backup, parts: map<Part, seq<Host>>, r: Request) {
    b.name == r.backup && r.part in b.parts && r.part in parts && r.host in parts[r.part]
  }

  lemma {:induction false} HostsAsked(hosts: seq<Host>, part: Part, backup: string, r: Request)
    ensures r in ForHosts(hosts, part, backup) <==> r.part == part && r.backup == backup && r.host in hosts
  {
    if hosts != [] {
      var n := |hosts| - 1;
      HostsAsked(hosts[..n], part, backup, r);
      assert hosts == hosts[..n] + [hosts[n]];
    }
  }

  lemma {:induction false} PartsAsked(ps: seq<Part>, parts: map<Part, seq<Host>>, backup: string, r: Request)
    ensures r in ForParts(ps, parts, backup)
      <==> r.backup == backup && r.part in ps && r.part in parts && r.host in parts[r.part]
  {
    if ps != [] {
      var n := |ps| - 1;
      PartsAsked(ps[..n], parts, backup, r);
      HostsAsked(HostsOf(parts, ps[n]), ps[n], backup, r);
      assert ps == ps[..n] + [ps[n]];
    }
  }

  /** A download is asked for exactly if it is due. */
  lemma {:induction false} AskedIff(backups: seq<Backup>, parts: map<Part, seq<Host>>, r: Request)
    ensures r in ForBackups(backups, parts) <==> Due(backups, parts, r)
  {
    if backups != [] {
      var n := |backups| - 1;
      AskedIff(backups[..n], parts, r);
      PartsAsked(backups[n].parts, parts, backups[n].name, r);
      OneMoreDue(backups[..n], backups[n], parts, r);
      assert backups == backups[..n] + [backups[n]];
    }
  }

  lemma OneMoreDue(backups: seq<Backup>, last: Backup, parts: map<Part, seq<Host>>, r: Request)
    ensures Due(backups + [last], parts, r) <==> Due(backups, parts, r) || DueFrom(last, parts, r)
  {
    var all := backups + [last];
    assert all[|backups|] == last && forall i :: 0 <= i < |backups| ==> all[i] == backups[i];
  }

  // ------------------------------------------------------------------ nothing twice

  ghost predicate Distinct<T(!new)>(s: seq<T>) {
    forall i, j :: 0 <= i < j < |s| ==> s[i] != s[j]
  }

  /** Each backup lists its parts once, each part its hosts once, and no two backups have one name. */
  ghost predicate EachOnce(backups: seq<Backup>, parts: map<Part, seq<Host>>) {
    && (forall p :: p in parts ==> Distinct(parts[p]))
    && (forall i :: 0 <= i < |backups| ==> Distinct(backups[i].parts))
    && (forall i, j :: 0 <= i < j < |backups| ==> backups[i].name != backups[j].name)
  }

  lemma DistinctSum<T(!new)>(a: seq<T>, b: seq<T>)
    requires Distinct(a) && Distinct(b) && forall x :: x in a ==> x !in b
    ensures Distinct(a + b)
  {
    forall i, j | 0 <= i < j < |a + b| ensures (a + b)[i] != (a + b)[j] {
      if i < |a| <= j {
        assert (a + b)[i] in a && (a + b)[j] in b;
      }
    }
  }

  lemma {:induction false} HostsOnce(hosts: seq<Host>, part: Part, backup: string)
    requires Distinct(hosts)
    ensures Distinct(ForHosts(hosts, part, backup))
  {
    if hosts != [] {
      var n := |hosts| - 1;
      HostsOnce(hosts[..n], part, backup);
      HostsAsked(hosts[..n], part, backup, Request(hosts[n], part, backup));
      DistinctSum(ForHosts(hosts[..n], part, backup), [Request(hosts[n], part, backup)]);
    }
  }

  lemma {:induction false} PartsOnce(ps: seq<Part>, parts: map<Part, seq<Host>>, backup: string)
    requires Distinct(ps) && forall p :: p in parts ==> Distinct(parts[p])
    ensures Distinct(ForParts(ps, parts, backup))
  {
    if ps != [] {
      var n := |ps| - 1;
      var before, last := ForParts(ps[..n], parts, backup), ForHosts(HostsOf(parts, ps[n]), ps[n], backup);
      PartsOnce(ps[..n], parts, backup);
      HostsOnce(HostsOf(parts, ps[n]), ps[n], backup);
      forall r | r in before ensures r !in last {
        PartsAsked(ps[..n], parts, backup, r);
        HostsAsked(HostsOf(parts, ps[n]), ps[n], backup, r);
      }
      DistinctSum(before, last);
    }
  }

  /** No download is asked for twice. */
  lemma {:induction false} AskedOnce(backups: seq<Backup>, parts: map<Part, seq<Host>>)
    requires EachOnce(backups, parts)
    ensures Distinct(ForBackups(backups, parts))
  {
    if backups != [] {
      var n := |backups| - 1;
      var before, last := ForBackups(backups[..n], parts), ForParts(backups[n].parts, parts, backups[n].name);
      AskedOnce(backups[..n], parts);
      PartsOnce(backups[n].parts, parts, backups[n].name);
      forall r | r in before ensures r !in last {
        AskedIff(backups[..n], parts, r);
        PartsAsked(backups[n].parts, parts, backups[n].name, r);
      }
      DistinctSum(before, last);
    }
  }
}
