/**
 Which portals a back end serves: the host-name grammar (section 2.1 of RFC 1123), the wildcard
 allowlist, the parsing of the configured list, and the choice of a portal for a login.
 */
module PortalHosts {
  import opened Common
  import opened Text

  datatype ResolveError = NoPortal | NotAHostname | NotServed

  // ---------------------------------------------------------------- the host grammar

  predicate IsAlnum(c: char) { 'a' <= c <= 'z' || '0' <= c <= '9' }

  predicate IsLabel(s: string) {
    1 <= |s| <= 63 && IsAlnum(s[0]) && IsAlnum(s[|s| - 1]) && forall c | c in s :: IsAlnum(c) || c == '-'
  }

  predicate IsTopLevel(s: string) {
    |s| >= 2 && forall c | c in s :: 'a' <= c <= 'z'
  }

  /** One or more labels, each followed by a dot, and then a top level, as the regular expression repeats them. */
  predicate MatchesLabels(s: string)
    decreases |s|
  {
    exists i | 0 <= i < |s| ::
      s[i] == '.' && IsLabel(s[..i]) && (IsTopLevel(s[i + 1..]) || MatchesLabels(s[i + 1..]))
  }

  predicate IsValidPortalHostname(host: string) {
    host != "" && |host| <= 253 && MatchesLabels(host)
  }

  function Labels(host: string): seq<string> { Split(host, '.') }

  ghost predicate HostLabels(ls: seq<string>) {
    |ls| >= 2 && IsTopLevel(ls[|ls| - 1]) && forall i | 0 <= i < |ls| - 1 :: IsLabel(ls[i])
  }

  lemma {:induction false} PrependLabel(head: string, rest: string)
    requires IsLabel(head) && (IsTopLevel(rest) || HostLabels(Labels(rest)))
    ensures HostLabels(Labels(head + ['.'] + rest))
  {
    SplitConcat(head, rest, '.');
    SplitWithout(head, '.');
    if IsTopLevel(rest) {
      SplitWithout(rest, '.');
    }
  }

  lemma {:induction false} MatchHasHostLabels(s: string)
    requires MatchesLabels(s)
    ensures HostLabels(Labels(s))
    decreases |s|
  {
    var i :| 0 <= i < |s| && s[i] == '.' && IsLabel(s[..i]) && (IsTopLevel(s[i + 1..]) || MatchesLabels(s[i + 1..]));
    assert s == s[..i] + ['.'] + s[i + 1..];
    if !IsTopLevel(s[i + 1..]) {
      MatchHasHostLabels(s[i + 1..]);
    }
    PrependLabel(s[..i], s[i + 1..]);
  }

  lemma {:induction false} HostLabelsMatch(ls: seq<string>)
    requires HostLabels(ls)
    ensures MatchesLabels(Join(ls, '.'))
    decreases |ls|
  {
    var rest := Join(ls[1..], '.');
    if |ls| == 2 {
      assert rest == ls[1];
    } else {
      HostLabelsMatch(ls[1..]);
    }
    LabelInFront(ls[0], rest);
  }

  lemma LabelInFront(first: string, rest: string)
    requires IsLabel(first) && (IsTopLevel(rest) || MatchesLabels(rest))
    ensures MatchesLabels(first + ['.'] + rest)
  {
    var s, i := first + ['.'] + rest, |first|;
    assert s[..i] == first && s[i] == '.' && s[i + 1..] == rest;
  }

  /** The grammar says what its labels are: splitting a text on dots decides whether it matches. */
  lemma {:induction false} GrammarByLabels(s: string)
    ensures MatchesLabels(s) <==> HostLabels(Labels(s))
  {
    if MatchesLabels(s) { MatchHasHostLabels(s); }
    if HostLabels(Labels(s)) {
      HostLabelsMatch(Labels(s));
      JoinSplit(s, '.');
    }
  }

  /** Every accepted host is its labels joined by dots, already trimmed and in lower case. */
  lemma {:induction false} AcceptedHost(host: string)
    requires IsValidPortalHostname(host)
    ensures HostLabels(Labels(host)) && Join(Labels(host), '.') == host
    ensures Trim(host) == host && ToLower(host) == host
  {
    GrammarByLabels(host);
    JoinSplit(host, '.');
    HostCharacters(host);
    assert host[0] in host && host[|host| - 1] in host;
    TrimStays(host);
    LowerStays(host);
  }

  /** The characters of a label, and of its ends, by their codes: lower-case letters, digits and, inside, hyphens. */
  ghost predicate LabelOfTheStandard(l: string) {
    && 1 <= |l| <= 63 && l[0] != '-' && l[|l| - 1] != '-'
    && forall k | 0 <= k < |l| :: 97 <= l[k] as int <= 122 || 48 <= l[k] as int <= 57 || l[k] as int == 45
  }

  ghost predicate TopLevelOfTheStandard(l: string) {
    |l| >= 2 && forall k | 0 <= k < |l| :: 97 <= l[k] as int <= 122
  }

  lemma {:induction false} LabelsAgree(l: string)
    ensures IsLabel(l) <==> LabelOfTheStandard(l)
    ensures IsTopLevel(l) <==> TopLevelOfTheStandard(l)
  {
    if IsLabel(l) {
      forall k | 0 <= k < |l| ensures 97 <= l[k] as int <= 122 || 48 <= l[k] as int <= 57 || l[k] as int == 45 {
        assert l[k] in l;
      }
    }
    if IsTopLevel(l) {
      forall k | 0 <= k < |l| ensures 97 <= l[k] as int <= 122 { assert l[k] in l; }
    }
  }

  /** Which hosts are accepted, in the terms of section 2.1 of RFC 1123: at most 253 characters, labels, and a top level. */
  lemma {:induction false} HostsOfTheStandard(host: string)
    ensures IsValidPortalHostname(host) <==>
              && 1 <= |host| <= 253 && |Split(host, '.')| >= 2
              && TopLevelOfTheStandard(Split(host, '.')[|Split(host, '.')| - 1])
              && forall i | 0 <= i < |Split(host, '.')| - 1 :: LabelOfTheStandard(Split(host, '.')[i])
  {
    GrammarByLabels(host);
    var ls := Split(host, '.');
    forall i | 0 <= i < |ls| ensures IsLabel(ls[i]) <==> LabelOfTheStandard(ls[i]) { LabelsAgree(ls[i]); }
    LabelsAgree(ls[|ls| - 1]);
  }

  lemma {:induction false} HostCharacters(s: string)
    requires MatchesLabels(s)
    ensures forall c | c in s :: IsAlnum(c) || c == '-' || c == '.'
    decreases |s|
  {
    var i :| 0 <= i < |s| && s[i] == '.' && IsLabel(s[..i]) && (IsTopLevel(s[i + 1..]) || MatchesLabels(s[i + 1..]));
    if !IsTopLevel(s[i + 1..]) { HostCharacters(s[i + 1..]); }
    forall k | 0 <= k < |s| ensures IsAlnum(s[k]) || s[k] == '-' || s[k] == '.' {
      if k < i { assert s[..i][k] in s[..i]; }
      if k > i { assert s[i + 1..][k - i - 1] in s[i + 1..]; }
    }
  }

  // ---------------------------------------------------------------- the allowlist

  predicate EndsWith(s: string, suffix: string) {
    |suffix| <= |s| && s[|s| - |suffix|..] == suffix
  }

  predicate EntryAllows(candidate: string, entry: string) {
    if entry == "*" then true
    else if "*." <= entry then EndsWith(candidate, entry[1..]) && candidate != entry[2..]
    else candidate == entry
  }

  predicate IsPortalAllowed(host: string, allowed: seq<string>) {
    var candidate := ToLower(Trim(host));
    candidate != "" && exists i | 0 <= i < |allowed| :: EntryAllows(candidate, allowed[i])
  }

  predicate ProperSuffix(tail: seq<string>, whole: seq<string>) {
    |tail| < |whole| && whole[|whole| - |tail|..] == tail
  }

  /** A wildcard entry `*.s` allows exactly the hosts whose labels properly extend the labels of s. */
  lemma {:induction false} WildcardMeansProperSuffix(host: string, s: string)
    ensures EntryAllows(host, "*." + s) <==> ProperSuffix(Labels(s), Labels(host))
  {
    var entry := "*." + s;
    assert entry[1..] == "." + s && entry[2..] == s && entry != "*";
    JoinSplit(host, '.');
    JoinSplit(s, '.');
    if EndsWith(host, "." + s) {
      var p := host[..|host| - |s| - 1];
      assert host == p + ['.'] + s;
      SplitConcat(p, s, '.');
      assert Labels(host) == Labels(p) + Labels(s);
      assert Labels(host)[|Labels(p)|..] == Labels(s);
    }
    if ProperSuffix(Labels(s), Labels(host)) {
      var n := |Labels(host)| - |Labels(s)|;
      assert Labels(host) == Labels(host)[..n] + Labels(s);
      JoinConcat(Labels(host)[..n], Labels(s), '.');
      var p := Join(Labels(host)[..n], '.');
      assert host == p + ['.'] + s;
      assert host[|host| - |s| - 1..] == "." + s;
    }
  }

  /** What the allowlist means for a host the grammar accepts, entry by entry. */
  lemma {:induction false} AllowlistMeaning(host: string, allowed: seq<string>)
    requires IsValidPortalHostname(host)
    ensures IsPortalAllowed(host, allowed) <==>
              exists i :: 0 <= i < |allowed| &&
                (allowed[i] == "*" || allowed[i] == host ||
                 ("*." <= allowed[i] && ProperSuffix(Labels(allowed[i][2..]), Labels(host))))
  {
    AcceptedHost(host);
    HostCharacters(host);
    forall i | 0 <= i < |allowed|
      ensures EntryAllows(host, allowed[i]) <==>
                (allowed[i] == "*" || allowed[i] == host ||
                 ("*." <= allowed[i] && ProperSuffix(Labels(allowed[i][2..]), Labels(host))))
    {
      if "*." <= allowed[i] {
        assert allowed[i] == "*." + allowed[i][2..];
        assert allowed[i][0] == '*' && host[0] != '*';
        WildcardMeansProperSuffix(host, allowed[i][2..]);
      }
    }
  }

  // ---------------------------------------------------------------- configuration

  function Cleaned(parts: seq<string>): seq<string> {
    if parts == [] then []
    else
      var entry := ToLower(Trim(parts[0]));
      (if entry == "" then [] else [entry]) + Cleaned(parts[1..])
  }

  /** None when no portal is configured and one is required. */
  function ParsePortalList(allowedPortals: string, portalDomain: string, required: bool): Option<seq<string>> {
    var source := if Trim(allowedPortals) != "" then Trim(allowedPortals) else Trim(portalDomain);
    var entries := Cleaned(Split(source, ','));
    if entries == [] && required then None else Some(entries)
  }

  predicate CleanEntry(e: string) {
    e != "" && Trimmed(e) && Lower(e) && ',' !in e
  }

  lemma {:induction false} CleanedEntriesAreClean(parts: seq<string>)
    requires forall p | p in parts :: ',' !in p
    ensures forall e | e in Cleaned(parts) :: CleanEntry(e)
  {
    if parts != [] {
      CleanedEntriesAreClean(parts[1..]);
      TrimFacts(parts[0]);
      ToLowerIsLower(Trim(parts[0]));
      var t := Trim(parts[0]);
      forall i | 0 <= i < |t| ensures ToLower(t)[i] != ',' {
        assert t[i] in parts[0];
      }
    }
  }

  lemma {:induction false} CleanEntriesStay(parts: seq<string>)
    requires forall p | p in parts :: CleanEntry(p)
    ensures Cleaned(parts) == parts
  {
    if parts != [] {
      assert parts[0] in parts;
      CleanEntriesStay(parts[1..]);
      TrimStays(parts[0]);
      LowerStays(parts[0]);
    }
  }

  lemma {:induction false} JoinedIsTrimmed(parts: seq<string>)
    requires |parts| >= 1 && forall p | p in parts :: CleanEntry(p)
    ensures Join(parts, ',') != "" && Trimmed(Join(parts, ','))
  {
    assert CleanEntry(parts[0]);
    if |parts| > 1 {
      JoinedIsTrimmed(parts[1..]);
      var rest := Join(parts[1..], ',');
      var whole := parts[0] + [','] + rest;
      assert whole[|whole| - 1] == rest[|rest| - 1] && whole[0] == parts[0][0];
    }
  }

  /**
   Whatever is configured, the parsed entries are clean; and writing clean entries as a comma list and
   parsing it gives them back, whichever of the two settings it was written in.
   */
  lemma {:induction false} PortalListRoundTrip(allowedPortals: string, portalDomain: string, required: bool, entries: seq<string>)
    requires |entries| >= 1 && forall e | e in entries :: CleanEntry(e)
    ensures var r := ParsePortalList(allowedPortals, portalDomain, required);
            (r.Some? ==> forall e | e in r.value :: CleanEntry(e)) && (required ==> r != Some([]))
    ensures ParsePortalList(Join(entries, ','), portalDomain, required) == Some(entries)
    ensures Trim(allowedPortals) == "" ==> ParsePortalList(allowedPortals, Join(entries, ','), required) == Some(entries)
  {
    var source := if Trim(allowedPortals) != "" then Trim(allowedPortals) else Trim(portalDomain);
    JoinSplit(source, ',');
    CleanedEntriesAreClean(Split(source, ','));
    JoinedIsTrimmed(entries);
    TrimStays(Join(entries, ','));
    SplitJoin(entries, ',');
    CleanEntriesStay(entries);
  }

  // ---------------------------------------------------------------- the portal of a login

  function ResolvePortal(requested: Option<string>, defaultPortal: string, allowed: seq<string>): Result<string, ResolveError> {
    var candidate :=
      if requested.Some? && Trim(requested.value) != "" then ToLower(Trim(requested.value)) else defaultPortal;
    if candidate == "" then Err(NoPortal)
    else if !IsValidPortalHostname(candidate) then Err(NotAHostname)
    else if !IsPortalAllowed(candidate, allowed) then Err(NotServed)
    else Ok(candidate)
  }

  /** The portal asked for decides, cleaned; only a missing or blank request falls back to the configured one. */
  lemma {:induction false} RequestDecides(requested: Option<string>, defaultPortal: string, allowed: seq<string>)
    ensures var wanted := match requested
                          case None => defaultPortal
                          case Some(text) => if Trim(text) == "" then defaultPortal else ToLower(Trim(text));
            var r := ResolvePortal(requested, defaultPortal, allowed);
            && (r == Ok(wanted) <==> IsValidPortalHostname(wanted) && IsPortalAllowed(wanted, allowed))
            && (r == Err(NoPortal) <==> wanted == "")
            && (r == Err(NotAHostname) <==> wanted != "" && !IsValidPortalHostname(wanted))
            && (r == Err(NotServed) <==> IsValidPortalHostname(wanted) && !IsPortalAllowed(wanted, allowed))
  {}

  /** Entries are judged one by one and in order, whatever else the list holds; blank ones drop out. */
  lemma {:induction false} EntriesOneByOne(parts: seq<string>, entry: string)
    ensures Cleaned(parts + [entry]) == Cleaned(parts) + (if Trim(entry) == "" then [] else [ToLower(Trim(entry))])
    ensures Cleaned([]) == []
  {
    if parts == [] {
      assert [entry][1..] == [] && [] + [entry] == [entry];
      assert |ToLower(Trim(entry))| == |Trim(entry)|;
    } else {
      assert (parts + [entry])[1..] == parts[1..] + [entry];
      EntriesOneByOne(parts[1..], entry);
    }
  }

  /** The list setting wins over the single portal when it says anything; nothing configured is refused exactly when required. */
  lemma {:induction false} SettingsDecide(allowedPortals: string, portalDomain: string, required: bool)
    ensures var source := if Trim(allowedPortals) == "" then Trim(portalDomain) else Trim(allowedPortals);
            var entries := Cleaned(Split(source, ','));
            ParsePortalList(allowedPortals, portalDomain, required)
            == if entries == [] && required then None else Some(entries)
  {}

  /** A resolved portal is a well-formed, allowlisted host, and asking for it by name resolves to it again. */
  lemma {:induction false} ResolvedPortalIsServed(requested: Option<string>, defaultPortal: string, allowed: seq<string>)
    ensures var r := ResolvePortal(requested, defaultPortal, allowed);
            r.Ok? ==>
              && IsValidPortalHostname(r.value)
              && IsPortalAllowed(r.value, allowed)
              && ResolvePortal(Some(r.value), defaultPortal, allowed) == r
  {
    var r := ResolvePortal(requested, defaultPortal, allowed);
    if r.Ok? { AcceptedHost(r.value); }
  }
}
