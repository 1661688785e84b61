/** First-fit allocation of one address in a subnet. */
module Ipam {
  import opened ApiObjects
  import opened Addresses

  datatype Range = Range(start: Addr, end: Addr)

  datatype IPAddress = IPAddress(network: Name, subnet: Name, address: Addr)

  datatype AssignError = BadExclude | BadReservation | Excluded | AlreadyReserved | BadRange | Exhausted
  datatype Assignment = Assigned(ip: Addr) | Refused(error: AssignError)

  // ---------------------------------------------------------------- specification

  predicate Free(a: Addr, excluded: set<Addr>, reserved: set<Addr>) {
    !ZeroEnded(a) && a !in excluded && a !in reserved
  }

  /** Walk from `ip` to `end` with Addr.Next and stop at the first address that is free. */
  function Walk(ip: Addr, end: Addr, excluded: set<Addr>, reserved: set<Addr>): Option<Addr>
    decreases Room(ip), if ip.Bad? then 0 else 1
  {
    if !Leq(ip, end) then None
    else if Free(ip, excluded, reserved) then Some(ip)
    else if ip.Bad? then None
    else Walk(Next(ip), end, excluded, reserved)
  }

  function FirstFit(ranges: seq<Range>, excluded: set<Addr>, reserved: set<Addr>): Assignment {
    if ranges == [] then Refused(Exhausted)
    else if ranges[0].start.Bad? || ranges[0].end.Bad? then Refused(BadRange)
    else
      var hit := Walk(ranges[0].start, ranges[0].end, excluded, reserved);
      if hit.Some? then Assigned(hit.value) else FirstFit(ranges[1..], excluded, reserved)
  }

  // ---------------------------------------------------------------- what first fit means

  predicate Within(a: Addr, r: Range) {
    SameFamily(a, r.start) && Proper(a) && Leq(r.start, a) && Leq(a, r.end)
  }

  /** No free address in this range. */
  ghost predicate Full(r: Range, excluded: set<Addr>, reserved: set<Addr>) {
    forall a :: Within(a, r) ==> !Free(a, excluded, reserved)
  }

  ghost predicate LeastFree(a: Addr, r: Range, excluded: set<Addr>, reserved: set<Addr>) {
    && Within(a, r) && Free(a, excluded, reserved)
    && forall b :: Within(b, r) && Free(b, excluded, reserved) ==> Leq(a, b)
  }

  /** The search leaves the family of the range at its top. */
  predicate RunsOver(r: Range) {
    Bits(r.start) < Bits(r.end) || (SameFamily(r.start, r.end) && Top(r.end) && Leq(r.start, r.end))
  }

  /** Exactly what the walk finds: the least free address, else the zero value if the range
      reaches the top of its family, else nothing. */
  lemma {:induction false} WalkFinds(ip: Addr, end: Addr, excluded: set<Addr>, reserved: set<Addr>)
    requires Proper(ip) && Proper(end) && !ip.Bad? && !end.Bad? && Bad !in excluded && Bad !in reserved
    ensures var r := Range(ip, end); var hit := Walk(ip, end, excluded, reserved);
            if Full(r, excluded, reserved) then hit == (if RunsOver(r) then Some(Bad) else None)
            else hit.Some? && LeastFree(hit.value, r, excluded, reserved)
    decreases Room(ip)
  {
    var r := Range(ip, end);
    if !Leq(ip, end) {
    } else if Free(ip, excluded, reserved) {
      assert Within(ip, r);
    } else if Top(ip) {
      assert Walk(Bad, end, excluded, reserved) == Some(Bad);
      assert forall a :: Within(a, r) ==> a == ip;
    } else {
      var rest := Range(Next(ip), end);
      NextFollows(ip, ip);
      WalkFinds(Next(ip), end, excluded, reserved);
      forall a | Within(a, r) && a != ip
        ensures Within(a, rest)
      {
        NextFollows(ip, a);
      }
      assert forall a :: Within(a, rest) ==> Within(a, r);
    }
  }

  ghost predicate Wellformed(ranges: seq<Range>) {
    forall r :: r in ranges ==> Proper(r.start) && Proper(r.end) && !r.start.Bad? && !r.end.Bad?
  }

  /** `a` is the least free address of range `i`, and the ranges before it have none. */
  ghost predicate FitsAt(a: Addr, ranges: seq<Range>, i: nat, excluded: set<Addr>, reserved: set<Addr>) {
    && i < |ranges| && LeastFree(a, ranges[i], excluded, reserved)
    && forall j :: 0 <= j < i ==> Full(ranges[j], excluded, reserved)
  }

  lemma FitsLater(a: Addr, ranges: seq<Range>, i: nat, excluded: set<Addr>, reserved: set<Addr>)
    requires ranges != [] && Full(ranges[0], excluded, reserved) && FitsAt(a, ranges[1..], i, excluded, reserved)
    ensures FitsAt(a, ranges, i + 1, excluded, reserved)
  {
  }

  /** First fit is complete: with every range ending below the top of its family it returns the
      first address, in range and then numeric order, that is free, and fails exactly when no
      range has one. */
  lemma {:induction false} FirstFitTheorem(ranges: seq<Range>, excluded: set<Addr>, reserved: set<Addr>)
    requires Wellformed(ranges) && Bad !in excluded && Bad !in reserved
    requires forall r :: r in ranges ==> !RunsOver(r)
    ensures var x := FirstFit(ranges, excluded, reserved);
            if forall r :: r in ranges ==> Full(r, excluded, reserved) then x == Refused(Exhausted)
            else x.Assigned? && exists i :: FitsAt(x.ip, ranges, i, excluded, reserved)
  {
    if ranges != [] {
      var x := FirstFit(ranges, excluded, reserved);
      WalkFinds(ranges[0].start, ranges[0].end, excluded, reserved);
      assert ranges[0] == Range(ranges[0].start, ranges[0].end) && ranges[0] in ranges;
      if Full(ranges[0], excluded, reserved) {
        FirstFitTheorem(ranges[1..], excluded, reserved);
        assert forall r :: r in ranges ==> r == ranges[0] || r in ranges[1..];
        if x.Assigned? {
          var i :| FitsAt(x.ip, ranges[1..], i, excluded, reserved);
          FitsLater(x.ip, ranges, i, excluded, reserved);
        }
      } else {
        assert FitsAt(x.ip, ranges, 0, excluded, reserved);
      }
    }
  }

  /** Range `i` reaches the top of its family, and up to it everything is taken. */
  ghost predicate RunsOverAt(ranges: seq<Range>, i: nat, excluded: set<Addr>, reserved: set<Addr>) {
    && i < |ranges| && RunsOver(ranges[i])
    && forall j :: 0 <= j <= i ==> Full(ranges[j], excluded, reserved)
  }

  lemma RunsOverLater(ranges: seq<Range>, i: nat, excluded: set<Addr>, reserved: set<Addr>)
    requires ranges != [] && Full(ranges[0], excluded, reserved)
    ensures RunsOverAt(ranges[1..], i, excluded, reserved) <==> RunsOverAt(ranges, i + 1, excluded, reserved)
  {
  }

  /** Without that hypothesis a full range that reaches the top yields the zero value as if it
      had been allocated; this is the only way to get it. */
  lemma {:induction false} FirstFitRunsOver(ranges: seq<Range>, excluded: set<Addr>, reserved: set<Addr>)
    requires Wellformed(ranges) && Bad !in excluded && Bad !in reserved
    ensures FirstFit(ranges, excluded, reserved) == Assigned(Bad) <==>
            exists i :: RunsOverAt(ranges, i, excluded, reserved)
  {
    if ranges != [] {
      WalkFinds(ranges[0].start, ranges[0].end, excluded, reserved);
      assert ranges[0] == Range(ranges[0].start, ranges[0].end) && ranges[0] in ranges;
      if Full(ranges[0], excluded, reserved) {
        if RunsOver(ranges[0]) {
          assert RunsOverAt(ranges, 0, excluded, reserved);
        } else {
          FirstFitRunsOver(ranges[1..], excluded, reserved);
          if i: nat :| RunsOverAt(ranges[1..], i, excluded, reserved) {
            RunsOverLater(ranges, i, excluded, reserved);
          }
          if i: nat :| RunsOverAt(ranges, i, excluded, reserved) {
            assert i > 0;
            RunsOverLater(ranges, i - 1, excluded, reserved);
          }
        }
      }
    }
  }

  /** 255.255.255.254 to 255.255.255.255, both taken: the search "allocates" the zero value. */
  lemma TopRangeOverflows()
    ensures var top := SIZE4 - 1;
            FirstFit([Range(V4(top - 1), V4(top))], {}, {V4(top - 1), V4(top)}) == Assigned(Bad)
  {
    var r := Range(V4(SIZE4 - 2), V4(SIZE4 - 1));
    assert Full(r, {}, {V4(SIZE4 - 2), V4(SIZE4 - 1)});
    assert RunsOverAt([r], 0, {}, {V4(SIZE4 - 2), V4(SIZE4 - 1)});
    FirstFitRunsOver([r], {}, {V4(SIZE4 - 2), V4(SIZE4 - 1)});
  }

  /** Whatever first fit hands out is free, and with ranges inside a block it lies in the block. */
  lemma {:induction false} FirstFitInBlock(ranges: seq<Range>, excluded: set<Addr>, reserved: set<Addr>, c: Cidr)
    requires Wellformed(ranges) && Parses(c) && Bad !in excluded && Bad !in reserved
    requires forall r :: r in ranges ==> Contains(c, r.start) && Contains(c, r.end)
    requires FirstFit(ranges, excluded, reserved).Assigned?
    ensures var a := FirstFit(ranges, excluded, reserved).ip;
            a !in excluded && a !in reserved && (a.Bad? || (Proper(a) && Contains(c, a)))
  {
    var r := ranges[0];
    assert r in ranges;
    WalkFinds(r.start, r.end, excluded, reserved);
    var hit := Walk(r.start, r.end, excluded, reserved);
    if hit.None? {
      FirstFitInBlock(ranges[1..], excluded, reserved, c);
    } else if !hit.value.Bad? {
      BlockConvex(c, r.start, hit.value, r.end);
    }
  }

  // ---------------------------------------------------------------- one assignment

  /** The addresses that the listed reservations hold under this network name. */
  function ReservedFor(list: seq<map<Name, IPAddress>>, net: Name): set<Addr> {
    set r: map<Name, IPAddress> | r in list && net in r :: r[net].address
  }

  /** fixed is Bad when no fixed address is requested. */
  function Assign(net: Name, ranges: seq<Range>, excludes: seq<Addr>, list: seq<map<Name, IPAddress>>,
                  fixed: Addr): Assignment {
    if Bad in excludes then Refused(BadExclude)
    else if Bad in ReservedFor(list, net) then Refused(BadReservation)
    else if fixed.Bad? then FirstFit(ranges, Elements(excludes), ReservedFor(list, net))
    else if fixed in excludes then Refused(Excluded)
    else if fixed in ReservedFor(list, net) then Refused(AlreadyReserved)
    else Assigned(fixed)
  }

  /** A fixed address is what the request gets, or it is refused, and that exactly when the address
      is excluded or reserved; provided the two lists consist of addresses. */
  lemma FixedExactly(net: Name, ranges: seq<Range>, excludes: seq<Addr>, list: seq<map<Name, IPAddress>>, fixed: Addr)
    requires Bad !in excludes && Bad !in ReservedFor(list, net) && !fixed.Bad?
    ensures var r := Assign(net, ranges, excludes, list, fixed);
            if fixed in excludes || fixed in ReservedFor(list, net) then r.Refused? else r == Assigned(fixed)
  {
  }

  class AssignIPDetails {
    const net: Name
    const ranges: seq<Range>
    const excludes: seq<Addr>
    const list: seq<map<Name, IPAddress>>
    const fixed: Addr
    var excluded: Option<set<Addr>>
    var reserved: Option<set<Addr>>

    constructor (net: Name, ranges: seq<Range>, excludes: seq<Addr>, list: seq<map<Name, IPAddress>>, fixed: Addr)
      ensures this.net == net && this.ranges == ranges && this.excludes == excludes && this.list == list &&
              this.fixed == fixed
      ensures excluded.None? && reserved.None?
    {
      this.net, this.ranges, this.excludes, this.list, this.fixed := net, ranges, excludes, list, fixed;
      excluded, reserved := None, None;
    }

    method BuildExcluded() returns (ok: bool)
      requires excluded.None?
      modifies this`excluded
      ensures ok <==> Bad !in excludes
      ensures ok ==> excluded == Some(Elements(excludes))
    {
      excluded := Some({});
      for i := 0 to |excludes|
        invariant excluded.Some? && excluded.value == Elements(excludes[..i]) && Bad !in excludes[..i]
      {
        if excludes[i].Bad? {
          return false;
        }
        assert excludes[..i + 1] == excludes[..i] + [excludes[i]];
        excluded := Some(excluded.value + {excludes[i]});
      }
      assert excludes[..|excludes|] == excludes;
      return true;
    }

    method BuildReserved() returns (ok: bool)
      requires reserved.None?
      modifies this`reserved
      ensures ok <==> Bad !in ReservedFor(list, net)
      ensures ok ==> reserved == Some(ReservedFor(list, net))
    {
      reserved := Some({});
      for i := 0 to |list|
        invariant reserved.Some? && reserved.value == ReservedFor(list[..i], net) && Bad !in reserved.value
      {
        assert list[..i + 1] == list[..i] + [list[i]];
        if net in list[i] {
          if list[i][net].address.Bad? {
            assert list[i] in list;
            return false;
          }
          reserved := Some(reserved.value + {list[i][net].address});
        }
      }
      assert list[..|list|] == list;
      return true;
    }

    method FixedIPExists() returns (r: Assignment)
      requires excluded.Some? && reserved.Some?
      ensures r.Assigned? <==> fixed !in excluded.value && fixed !in reserved.value
      ensures r.Assigned? ==> r.ip == fixed
      ensures r.Refused? ==> r.error == if fixed in excluded.value then Excluded else AlreadyReserved
    {
      if fixed in excluded.value {
        return Refused(Excluded);
      }
      if fixed in reserved.value {
        return Refused(AlreadyReserved);
      }
      return Assigned(fixed);
    }

    /** The nested search; it ends although `Next` wraps around to the zero value. */
    method IterateForAssignment() returns (r: Assignment)
      requires excluded.Some? && reserved.Some? && Bad !in excluded.value && Bad !in reserved.value
      ensures r == FirstFit(ranges, excluded.value, reserved.value)
    {
      for i := 0 to |ranges|
        invariant FirstFit(ranges, excluded.value, reserved.value) ==
                  FirstFit(ranges[i..], excluded.value, reserved.value)
      {
        var first, last := ranges[i].start, ranges[i].end;
        if first.Bad? || last.Bad? {
          return Refused(BadRange);
        }
        var ip := first;
        while Leq(ip, last)
          invariant Walk(first, last, excluded.value, reserved.value) == Walk(ip, last, excluded.value, reserved.value)
          decreases Room(ip)
        {
          if !ZeroEnded(ip) && ip !in excluded.value && ip !in reserved.value {
            return Assigned(ip);
          }
          ip := Next(ip);
        }
        assert ranges[i..][1..] == ranges[i + 1..];
      }
      return Refused(Exhausted);
    }

    method AssignIP() returns (r: Assignment)
      requires excluded.None? && reserved.None?
      modifies this
      ensures r == Assign(net, ranges, excludes, list, fixed)
    {
      var ok := BuildExcluded();
      if !ok {
        return Refused(BadExclude);
      }
      ok := BuildReserved();
      if !ok {
        return Refused(BadReservation);
      }
      if !fixed.Bad? {
        r := FixedIPExists();
      } else {
        r := IterateForAssignment();
      }
    }
  }
}
