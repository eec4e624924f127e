/** `vc_affinity`: a hostname whose short name ends in a digit 2-9 asks the
    DRS rule engine to keep it apart from its siblings. */
module Affinity {
  import opened Wrappers
  import opened Text

  predicate IsTwoToNine(c: char) { '2' <= c <= '9' }

  /** The pattern /([2-9]$)/ matches the text at offset i. */
  predicate MatchesAt(s: string, i: nat) { i < |s| && IsTwoToNine(s[i]) && i + 1 == |s| }

  /** `s =~ /([2-9]$)/`: the least offset at or after i where the pattern matches. */
  function MatchFrom(s: string, i: nat): Option<nat>
    decreases |s| - i
  {
    if i >= |s| then None
    else if MatchesAt(s, i) then Some(i)
    else MatchFrom(s, i + 1)
  }

  /** String#chop, for a text that does not end in "\r\n". */
  function Chop(s: string): string
  {
    if s == [] then [] else s[..|s| - 1]
  }

  /** The call `Vm_drs.new(dc, cluster, base, domain, hostnum).create`. */
  datatype AffinityCall = AffinityCall(dc: string, cluster: string, base: string, domain: string, hostnum: nat)

  /** vc_affinity: the rule-engine call it makes, if any. hostnum is the
      offset of the match, as the source passes it, not the digit. */
  function VcAffinity(dc: string, cluster: string, host: string, domain: string): Option<AffinityCall>
  {
    match FirstField(host, '.')
    case None => None                 // nil =~ regex is nil
    case Some(short) =>
      match MatchFrom(short, 0)
      case None => None
      case Some(hostnum) => Some(AffinityCall(dc, cluster, Chop(short), domain, hostnum))
  }

  // ---------------------------------------------------------------------
  // Properties

  /** The search for /([2-9]$)/ finds the last offset when the text ends in
      2-9, and nothing otherwise. */
  lemma {:induction false} MatchFromEnd(s: string, i: nat)
    requires i <= |s|
    ensures MatchFrom(s, i) == if i < |s| && IsTwoToNine(s[|s| - 1]) then Some(|s| - 1) else None
    decreases |s| - i
  {
    if i < |s| && !MatchesAt(s, i) {
      MatchFromEnd(s, i + 1);
    }
  }

  /** The rule engine is called exactly when the short hostname ends in a
      digit 2-9; the base is the short name without that digit, and the
      number passed is the digit's offset, the short name's length less one. */
  lemma AffinityRule(dc: string, cluster: string, host: string, domain: string)
    ensures VcAffinity(dc, cluster, host, domain).Some? <==>
      FirstField(host, '.').Some? && FirstField(host, '.').value != [] &&
      IsTwoToNine(FirstField(host, '.').value[|FirstField(host, '.').value| - 1])
    ensures VcAffinity(dc, cluster, host, domain).Some? ==>
      var call := VcAffinity(dc, cluster, host, domain).value;
      var short := FirstField(host, '.').value;
      call.dc == dc && call.cluster == cluster && call.domain == domain &&
      call.base + [short[|short| - 1]] == short && call.hostnum == |short| - 1
  {
    match FirstField(host, '.')
    case None =>
    case Some(short) =>
      MatchFromEnd(short, 0);
      if short != [] {
        assert short[..|short| - 1] + [short[|short| - 1]] == short;
      }
  }

  /** The short name is the hostname before its first dot. */
  lemma ShortNameIsPrefix(host: string)
    ensures FirstField(host, '.').Some? ==>
      var short := FirstField(host, '.').value;
      '.' !in short && |short| <= |host| && host[..|short|] == short
  {
    FirstFieldIsPrefix(host, '.');
  }

  /** In any domain, web3 and db2 call the engine with bases web and db;
      web1 and web do not call it. */
  lemma AffinityExamples(dc: string, cluster: string, domain: string)
    ensures VcAffinity(dc, cluster, "web3" + "." + domain, domain)
      == Some(AffinityCall(dc, cluster, "web", domain, 3))
    ensures VcAffinity(dc, cluster, "db2" + "." + domain, domain)
      == Some(AffinityCall(dc, cluster, "db", domain, 2))
    ensures VcAffinity(dc, cluster, "web1" + "." + domain, domain).None?
    ensures VcAffinity(dc, cluster, "web" + "." + domain, domain).None?
  {
    ShortOf("web3", domain);
    assert Chop("web3") == "web";
    ShortOf("db2", domain);
    assert Chop("db2") == "db";
    ShortOf("web1", domain);
    ShortOf("web", domain);
  }

  lemma ShortOf(short: string, domain: string)
    requires short != [] && '.' !in short
    ensures FirstField(short + "." + domain, '.') == Some(short)
    ensures MatchFrom(short, 0) == if IsTwoToNine(short[|short| - 1]) then Some(|short| - 1) else None
  {
    FirstFieldOf(short, '.', domain);
    MatchFromEnd(short, 0);
  }

  /** The number handed to the engine is an offset: for ab7 it is 2, not 7. */
  lemma HostnumIsOffset(dc: string, cluster: string, domain: string)
    ensures VcAffinity(dc, cluster, "ab7" + "." + domain, domain) == Some(AffinityCall(dc, cluster, "ab", domain, 2))
  {
    ShortOf("ab7", domain);
    assert Chop("ab7") == "ab";
  }
}
