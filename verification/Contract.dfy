/** The behavioural contract: which observed behaviours a constraint set admits, and why
    loosening the set never turns a conforming record into a violating one. */
module Contract {
  import opened Strings
  import opened Json
  import opened Host

  type Fields = map<string, Json>

  /** `mapping.get(key)`, with `None` as `Null`. */
  function Get(m: Fields, key: string): Json { if key in m then m[key] else Null }

  /** Python's `True` and `False` are ints. */
  predicate IsInt(j: Json) { j.Int? || j.Bool? }
  function IntOf(j: Json): int requires IsInt(j) {
    match j case Int(n) => n case Bool(b) => if b then 1 else 0
  }

  datatype Assessment = Conforming | Violating | NotAssessable

  function Judge(admitted: bool): Assessment { if admitted then Conforming else Violating }

  // ---------- The file rule ----------

  /** `path == p or path.startswith(p + "/")` for `p = prefix.rstrip("/")` */
  predicate FileRule(path: string, prefix: string) {
    var p := StripSlashes(prefix);
    path == p || p + "/" <= path
  }

  /** `s.split("/")` */
  function Components(s: string): (r: seq<string>)
    ensures r != []
  {
    if s == [] then [[]]
    else
      var tail := Components(s[1..]);
      if s[0] == '/' then [[]] + tail else [[s[0]] + tail[0]] + tail[1..]
  }

  predicate IsPrefix(p: seq<string>, s: seq<string>) { |p| <= |s| && s[..|p|] == p }

  /** Extending a directory name with "/" is exactly prefixing by path components. */
  lemma {:induction false} ComponentPrefix(p: string, path: string)
    ensures IsPrefix(Components(p), Components(path)) <==> path == p || p + "/" <= path
  {
    var cp, cs := Components(p), Components(path);
    if p == [] {
      assert "/" <= path <==> path != [] && path[0] == '/';
      assert IsPrefix(cp, cs) <==> cs[0] == [];
    } else if path != [] {
      ComponentPrefix(p[1..], path[1..]);
      var tp, ts := Components(p[1..]), Components(path[1..]);
      assert p == [p[0]] + p[1..] && path == [path[0]] + path[1..];
      assert p + "/" <= path <==> p[0] == path[0] && p[1..] + "/" <= path[1..] by {
        assert p + "/" == [p[0]] + (p[1..] + "/");
      }
      assert path == p <==> p[0] == path[0] && path[1..] == p[1..];
      FirstComponent(p, path, tp, ts);
    } else {
      PrefixBySteps(cp, cs);
    }
  }

  lemma FirstComponent(p: string, path: string, tp: seq<string>, ts: seq<string>)
    requires p != [] && path != [] && tp == Components(p[1..]) && ts == Components(path[1..])
    ensures IsPrefix(Components(p), Components(path)) <==> p[0] == path[0] && IsPrefix(tp, ts)
  {
    var cp, cs := Components(p), Components(path);
    if p[0] == '/' && path[0] == '/' {
      assert cp[1..] == tp && cs[1..] == ts;
      PrefixBySteps(cp, cs);
    } else if p[0] != '/' && path[0] != '/' {
      assert cp[1..] == tp[1..] && cs[1..] == ts[1..];
      PrefixBySteps(cp, cs);
      PrefixBySteps(tp, ts);
      assert cp[0] == cs[0] <==> p[0] == path[0] && tp[0] == ts[0] by {
        assert cp[0][0] == p[0] && cp[0][1..] == tp[0] && cs[0][0] == path[0] && cs[0][1..] == ts[0];
        assert cp[0] == [p[0]] + tp[0] && cs[0] == [path[0]] + ts[0];
      }
    } else {
      PrefixBySteps(cp, cs);
      assert cp[0] != cs[0];
    }
  }

  lemma PrefixBySteps(p: seq<string>, s: seq<string>)
    requires p != [] && s != []
    ensures IsPrefix(p, s) <==> p[0] == s[0] && IsPrefix(p[1..], s[1..])
  {
    if IsPrefix(p, s) {
      assert p[0] == s[..|p|][0] == s[0];
      assert s[1..][..|p| - 1] == s[..|p|][1..] == p[1..];
    }
    if p[0] == s[0] && IsPrefix(p[1..], s[1..]) {
      assert s[..|p|] == [s[0]] + s[1..][..|p| - 1];
      assert p == [p[0]] + p[1..];
    }
  }

  /** The rule of the source, over all strings, is "the components of the directory, trailing
      slashes dropped, start the components of the path". */
  lemma FileRuleIsComponentPrefix(path: string, prefix: string)
    ensures FileRule(path, prefix) <==> IsPrefix(Components(StripSlashes(prefix)), Components(path))
  {
    ComponentPrefix(StripSlashes(prefix), path);
  }

  // ---------- Address blocks ----------

  function Pow2(n: nat): (r: nat) ensures r > 0 { if n == 0 then 1 else 2 * Pow2(n - 1) }

  function Bit(a: nat, i: nat): nat { (a / Pow2(i)) % 2 }

  predicate ValidNetwork(n: Network) {
    n.prefixLength <= Width(n.v6) && n.address < Pow2(Width(n.v6))
  }

  /** `ip in network`: same version, and equal once the host bits are dropped. */
  predicate InNetwork(a: Address, n: Network) {
    && a.v6 == n.v6 && n.prefixLength <= Width(n.v6)
    && var block := Pow2(Width(n.v6) - n.prefixLength);
       a.value / block == n.address / block
  }

  lemma HalveBlock(a: nat, i: nat)
    ensures a / Pow2(i) == 2 * (a / Pow2(i + 1)) + Bit(a, i)
  {
    var b, q := Pow2(i), a / Pow2(i);
    assert Pow2(i + 1) == 2 * b;
    var half, r := q / 2, a % b;
    assert a == b * q + r;
    assert q == 2 * half + q % 2;
    assert a == (2 * b) * half + (b * (q % 2) + r) by {
      assert b * q == b * (2 * half) + b * (q % 2);
    }
    QuotientIs(a, 2 * b, half, b * (q % 2) + r);
  }

  lemma Distribute(d: int, k: int, q: int)
    ensures d * (k - q) == d * k - d * q
  {}

  lemma AtLeastOnce(d: int, x: int)
    requires d > 0 && x != 0
    ensures x > 0 ==> d * x >= d
    ensures x < 0 ==> d * x <= -d
  {}

  lemma QuotientIs(a: nat, d: nat, q: nat, r: nat)
    requires d > 0 && a == d * q + r && r < d
    ensures a / d == q
  {
    var k, m := a / d, a % d;
    assert d * (k - q) == r - m by { Distribute(d, k, q); }
    if k != q { AtLeastOnce(d, k - q); }
  }

  /** Section 3.1 of RFC 4632: a block holds the addresses that share its leading bits. */
  lemma {:induction false} LeadingBits(a: nat, b: nat, lo: nat, width: nat)
    requires lo <= width && a < Pow2(width) && b < Pow2(width)
    ensures a / Pow2(lo) == b / Pow2(lo) <==> forall i :: lo <= i < width ==> Bit(a, i) == Bit(b, i)
    decreases width - lo
  {
    if lo == width {
      QuotientIs(a, Pow2(width), 0, a);
      QuotientIs(b, Pow2(width), 0, b);
    } else {
      LeadingBits(a, b, lo + 1, width);
      HalveBlock(a, lo);
      HalveBlock(b, lo);
    }
  }

  lemma MembershipIsLeadingBits(a: Address, n: Network)
    requires ValidNetwork(n) && a.value < Pow2(Width(a.v6))
    ensures InNetwork(a, n) <==>
      && a.v6 == n.v6
      && forall i :: Width(n.v6) - n.prefixLength <= i < Width(n.v6) ==> Bit(a.value, i) == Bit(n.address, i)
  {
    if a.v6 == n.v6 { LeadingBits(a.value, n.address, Width(n.v6) - n.prefixLength, Width(n.v6)); }
  }

  /** A wider block: a shorter prefix that contains the narrower block's address. */
  predicate Widens(n: Network, n': Network) {
    && n'.prefixLength <= n.prefixLength <= Width(n.v6) && InNetwork(Address(n.v6, n.address), n')
  }

  lemma {:induction false} SameInLargerBlock(a: nat, b: nat, i: nat, j: nat)
    requires i <= j && a / Pow2(i) == b / Pow2(i)
    ensures a / Pow2(j) == b / Pow2(j)
    decreases j - i
  {
    if i < j {
      HalveBlock(a, i);
      HalveBlock(b, i);
      SameInLargerBlock(a, b, i + 1, j);
    }
  }

  lemma WideningKeepsMembers(a: Address, n: Network, n': Network)
    requires Widens(n, n') && InNetwork(a, n)
    ensures InNetwork(a, n')
  {
    SameInLargerBlock(a.value, n.address, Width(n.v6) - n.prefixLength, Width(n.v6) - n'.prefixLength);
  }

  // ---------- Matching one record ----------

  predicate PortIn(dest: Fields, port: int) {
    var lo := if "port_min" in dest then dest["port_min"] else Int(0);
    var hi := if "port_max" in dest then dest["port_max"] else Int(-1);
    IsInt(lo) && IsInt(hi) && IntOf(lo) <= port <= IntOf(hi)
  }

  /** One allowed destination; whatever raises inside the loop is skipped. */
  predicate DestinationAdmits(h: Host, dest: Json, protocol: Json, ip: Address, port: int) {
    && dest.Obj? && "cidr" in dest.fields
    && h.parseNetwork(dest.fields["cidr"]).Some?
    && Get(dest.fields, "protocol") == protocol
    && InNetwork(ip, h.parseNetwork(dest.fields["cidr"]).value)
    && PortIn(dest.fields, port)
  }

  predicate NetworkAdmits(h: Host, dests: seq<Json>, protocol: Json, ip: Address, port: int) {
    exists i :: 0 <= i < |dests| && DestinationAdmits(h, dests[i], protocol, ip, port)
  }

  predicate FileAdmits(prefixes: seq<Json>, path: string) {
    exists i :: 0 <= i < |prefixes| && prefixes[i].Str? && FileRule(path, prefixes[i].s)
  }

  /** `_matches_contract` */
  function Assess(h: Host, behavior: string, details: Fields, constraints: Fields): Assessment {
    if behavior == "executable" then
      var path, allowed := Get(details, "path"), Get(constraints, "allowed_executables");
      if !path.Str? || !allowed.Arr? then NotAssessable else Judge(path in allowed.items)
    else if behavior == "file_access" then
      var path, prefixes := Get(details, "path"), Get(constraints, "allowed_file_path_prefixes");
      if !path.Str? || !prefixes.Arr? then NotAssessable else Judge(FileAdmits(prefixes.items, path.s))
    else if behavior == "network_connect" then
      var protocol, address, port := Get(details, "protocol"), Get(details, "address"), Get(details, "port");
      var dests := Get(constraints, "allowed_network_destinations");
      if (protocol != Str("tcp") && protocol != Str("udp")) || !address.Str? || !IsInt(port) then NotAssessable
      else if !dests.Arr? then NotAssessable
      else if h.parseAddress(address.s).None? then NotAssessable
      else Judge(NetworkAdmits(h, dests.items, protocol, h.parseAddress(address.s).value, IntOf(port)))
    else if behavior == "syscall_class" then
      var class_, allowed := Get(details, "class"), Get(constraints, "allowed_syscall_classes");
      if !class_.Str? || !allowed.Arr? then NotAssessable else Judge(class_ in allowed.items)
    else if behavior == "privilege_transition" then
      var changed, allowed := Get(details, "changed"), Get(constraints, "allow_privilege_transition");
      if !changed.Bool? || !allowed.Bool? then NotAssessable else Judge(!changed.b || allowed.b)
    else if behavior == "component_execution" then
      var status, purl := Get(details, "binding_status"), Get(details, "purl");
      var allowed := Get(constraints, "allowed_purls");
      if status != Str("bound") || !purl.Str? || !allowed.Arr? then NotAssessable else Judge(purl in allowed.items)
    else NotAssessable
  }

  // ---------- Valid constraint sets ----------

  predicate StringList(j: Json) { j.Arr? && forall i :: 0 <= i < |j.items| ==> j.items[i].Str? }

  predicate ValidDestination(h: Host, d: Json) {
    && d.Obj? && Get(d.fields, "protocol") in {Str("tcp"), Str("udp")}
    && "cidr" in d.fields && h.parseNetwork(d.fields["cidr"]).Some?
    && "port_min" in d.fields && "port_max" in d.fields
    && IsInt(d.fields["port_min"]) && IsInt(d.fields["port_max"])
    && 1 <= IntOf(d.fields["port_min"]) <= IntOf(d.fields["port_max"]) <= 65535
  }

  predicate ValidRelation(r: Json) {
    r.Obj? && Get(r.fields, "parent_executable").Str? && Get(r.fields, "child_executable").Str?
  }

  /** `_valid_contract_constraints` */
  predicate ValidConstraints(h: Host, value: Json) {
    && value.Obj?
    && var c := value.fields;
    && StringList(Get(c, "allowed_executables"))
    && StringList(Get(c, "allowed_file_path_prefixes"))
    && StringList(Get(c, "allowed_syscall_classes"))
    && StringList(Get(c, "allowed_purls"))
    && Get(c, "allowed_network_destinations").Arr?
    && Get(c, "allowed_parent_child_pairs").Arr?
    && Get(c, "allowed_syscall_classes").items != []
    && Get(c, "allow_privilege_transition").Bool?
    && IsInt(Get(c, "max_new_processes_per_5m")) && IntOf(Get(c, "max_new_processes_per_5m")) >= 0
    && (forall d :: d in Get(c, "allowed_network_destinations").items ==> ValidDestination(h, d))
    && (forall r :: r in Get(c, "allowed_parent_child_pairs").items ==> ValidRelation(r))
  }

  // ---------- Loosening ----------

  predicate ListGrows(c: Fields, c': Fields, field: string)
    requires Get(c, field).Arr? && Get(c', field).Arr?
  {
    forall x :: x in Get(c, field).items ==> x in Get(c', field).items
  }

  /** Every old directory lies in some new directory. */
  predicate DirectoriesGrow(old_: seq<Json>, new_: seq<Json>) {
    forall p :: p in old_ && p.Str? ==> exists q :: q in new_ && q.Str? && Ancestor(q.s, p.s)
  }

  predicate Ancestor(q: string, p: string) {
    IsPrefix(Components(StripSlashes(q)), Components(StripSlashes(p)))
  }

  predicate WiderDestination(h: Host, d: Json, d': Json)
    requires ValidDestination(h, d) && ValidDestination(h, d')
  {
    && Get(d.fields, "protocol") == Get(d'.fields, "protocol")
    && Widens(h.parseNetwork(d.fields["cidr"]).value, h.parseNetwork(d'.fields["cidr"]).value)
    && IntOf(d'.fields["port_min"]) <= IntOf(d.fields["port_min"])
    && IntOf(d.fields["port_max"]) <= IntOf(d'.fields["port_max"])
  }

  predicate DestinationsGrow(h: Host, old_: seq<Json>, new_: seq<Json>)
    requires forall d :: d in old_ ==> ValidDestination(h, d)
    requires forall d :: d in new_ ==> ValidDestination(h, d)
  {
    forall d :: d in old_ ==> exists d' :: d' in new_ && WiderDestination(h, d, d')
  }

  predicate Loosens(h: Host, c: Json, c': Json)
    requires ValidConstraints(h, c) && ValidConstraints(h, c')
  {
    && ListGrows(c.fields, c'.fields, "allowed_executables")
    && ListGrows(c.fields, c'.fields, "allowed_syscall_classes")
    && ListGrows(c.fields, c'.fields, "allowed_purls")
    && DirectoriesGrow(Get(c.fields, "allowed_file_path_prefixes").items,
      Get(c'.fields, "allowed_file_path_prefixes").items)
    && DestinationsGrow(h, Get(c.fields, "allowed_network_destinations").items,
      Get(c'.fields, "allowed_network_destinations").items)
    && (Get(c.fields, "allow_privilege_transition").b ==> Get(c'.fields, "allow_privilege_transition").b)
  }

  lemma FileLoosening(prefixes: seq<Json>, prefixes': seq<Json>, path: string)
    requires DirectoriesGrow(prefixes, prefixes') && FileAdmits(prefixes, path)
    ensures FileAdmits(prefixes', path)
  {
    hide FileRule, Components, StripSlashes;
    var i :| 0 <= i < |prefixes| && prefixes[i].Str? && FileRule(path, prefixes[i].s);
    var p := prefixes[i];
    var q :| q in prefixes' && q.Str? && Ancestor(q.s, p.s);
    FileRuleIsComponentPrefix(path, p.s);
    FileRuleIsComponentPrefix(path, q.s);
    var cq, cp, cs := Components(StripSlashes(q.s)), Components(StripSlashes(p.s)), Components(path);
    assert cs[..|cq|] == cs[..|cp|][..|cq|];
    var j :| 0 <= j < |prefixes'| && prefixes'[j] == q;
  }

  lemma NetworkLoosening(h: Host, dests: seq<Json>, dests': seq<Json>, protocol: Json, ip: Address, port: int)
    requires forall d :: d in dests ==> ValidDestination(h, d)
    requires forall d :: d in dests' ==> ValidDestination(h, d)
    requires DestinationsGrow(h, dests, dests') && NetworkAdmits(h, dests, protocol, ip, port)
    ensures NetworkAdmits(h, dests', protocol, ip, port)
  {
    var i :| 0 <= i < |dests| && DestinationAdmits(h, dests[i], protocol, ip, port);
    var d := dests[i];
    var d' :| d' in dests' && WiderDestination(h, d, d');
    WideningKeepsMembers(ip, h.parseNetwork(d.fields["cidr"]).value, h.parseNetwork(d'.fields["cidr"]).value);
    var j :| 0 <= j < |dests'| && dests'[j] == d';
    assert DestinationAdmits(h, dests'[j], protocol, ip, port);
  }

  /** Loosening keeps every conforming record conforming, and never changes whether a record
      can be assessed at all. */
  lemma LooseningKeepsConforming(h: Host, behavior: string, details: Fields, c: Json, c': Json)
    requires ValidConstraints(h, c) && ValidConstraints(h, c') && Loosens(h, c, c')
    ensures Assess(h, behavior, details, c.fields) == Conforming
        ==> Assess(h, behavior, details, c'.fields) == Conforming
    ensures Assess(h, behavior, details, c.fields) == NotAssessable
       <==> Assess(h, behavior, details, c'.fields) == NotAssessable
  {
    if Assess(h, behavior, details, c.fields) == Conforming {
      if behavior == "file_access" {
        FileLoosening(Get(c.fields, "allowed_file_path_prefixes").items,
                      Get(c'.fields, "allowed_file_path_prefixes").items, Get(details, "path").s);
      } else if behavior == "network_connect" {
        NetworkLoosening(h, Get(c.fields, "allowed_network_destinations").items,
                         Get(c'.fields, "allowed_network_destinations").items,
                         Get(details, "protocol"), h.parseAddress(Get(details, "address").s).value,
                         IntOf(Get(details, "port")));
      }
    }
  }

  /** Two validated fields take no part in the verdict: the process rate and the parent/child
      pairs of a contract are checked for shape and then never compared with a record. */
  lemma UnenforcedConstraints(h: Host, behavior: string, details: Fields, c: Fields, rate: Json, pairs: Json)
    ensures Assess(h, behavior, details,
              c["max_new_processes_per_5m" := rate]["allowed_parent_child_pairs" := pairs])
         == Assess(h, behavior, details, c)
  {
    var c' := c["max_new_processes_per_5m" := rate]["allowed_parent_child_pairs" := pairs];
    assert Get(c', "allowed_executables") == Get(c, "allowed_executables");
    assert Get(c', "allowed_file_path_prefixes") == Get(c, "allowed_file_path_prefixes");
    assert Get(c', "allowed_network_destinations") == Get(c, "allowed_network_destinations");
    assert Get(c', "allowed_syscall_classes") == Get(c, "allowed_syscall_classes");
    assert Get(c', "allow_privilege_transition") == Get(c, "allow_privilege_transition");
    assert Get(c', "allowed_purls") == Get(c, "allowed_purls");
  }
}
