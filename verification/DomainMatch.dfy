/**
 From direct-domain entries to the engine's literal string matches (splitDomainMatch in internal/singbox/generate.go).
 */
module DomainMatch {
  import opened Text
  import opened ConfigSchema

  /** The match fields of one rule: a name matches when it is listed exactly or ends in a listed suffix. */
  datatype NameMatch = NameMatch(exact: seq<string>, suffix: seq<string>)

  predicate MatchesName(m: NameMatch, name: string) {
    name in m.exact || exists i :: 0 <= i < |m.suffix| && HasSuffix(name, m.suffix[i])
  }

  /** Trimmed, without one trailing dot, lower case. */
  function Canonical(entry: string): string {
    var t := TrimSpace(entry);
    Lower(if t != "" && t[|t| - 1] == '.' then t[..|t| - 1] else t)
  }

  /** A name as the engine hands it on: in lower case, without the dot of the root and without space around it. */
  predicate AsReceived(name: string) {
    Canonical(name) == name
  }

  /** Space, case and one dot at the end do not matter. */
  lemma SpellingsOfOneName(name: string)
    requires TrimSpace(name) == name && TrimSpace(name + ".") == name + "." && (name != "" ==> name[|name| - 1] != '.')
    ensures Canonical(name) == Canonical(name + ".") == Lower(name)
    ensures forall entry :: TrimSpace(entry) == name ==> Canonical(entry) == Lower(name)
  {
    assert (name + ".")[..|name|] == name;
  }

  function ExactOf(entry: string): seq<string> {
    var e := Canonical(entry);
    if e == "" || e[0] == '.' then [] else [e]
  }

  function SuffixOf(entry: string): seq<string> {
    var e := Canonical(entry);
    if e == "" then [] else if e[0] == '.' then [e] else ["." + e]
  }

  function SplitDomains(entries: seq<string>): NameMatch {
    NameMatch(Collect(entries, ExactOf), Collect(entries, SuffixOf))
  }

  method SplitDomainMatch(entries: seq<string>) returns (exact: seq<string>, suffix: seq<string>)
    ensures NameMatch(exact, suffix) == SplitDomains(entries)
  {
    exact, suffix := [], [];
    for i := 0 to |entries|
      invariant exact == Collect(entries[..i], ExactOf) && suffix == Collect(entries[..i], SuffixOf)
    {
      CollectStep(entries, ExactOf, i);
      CollectStep(entries, SuffixOf, i);
      var e := TrimSpace(entries[i]);
      if e != "" {
        if e[|e| - 1] == '.' {
          e := e[..|e| - 1];
        }
        e := Lower(e);
        if e == "" {
        } else if e[0] == '.' {
          suffix := suffix + [e];
        } else {
          exact := exact + [e];
          suffix := suffix + ["." + e];
        }
      }
    }
    assert entries[..|entries|] == entries;
  }

  // ---- what an entry means: a comparison of whole labels (section 3.1 of RFC 1034)

  function Labels(name: string): seq<string> {
    Split(name, '.')
  }

  /** A bare name covers itself and everything under it; a leading dot leaves the name itself out. */
  predicate Covers(entry: string, name: string) {
    var e := Canonical(entry);
    && e != ""
    && if e[0] == '.'
       then |Labels(name)| > |Labels(e[1..])| && HasSuffix(Labels(name), Labels(e[1..]))
       else HasSuffix(Labels(name), Labels(e))
  }

  predicate CoveredByAny(entries: seq<string>, name: string) {
    exists i :: 0 <= i < |entries| && Covers(entries[i], name)
  }

  lemma DottedSuffixToLabels(front: string, rest: string)
    ensures var l := Labels(front + "." + rest);
            |l| > |Labels(rest)| && HasSuffix(l, Labels(rest))
  {
    SplitAtSeparator(front, '.', rest);
    AppendHasSuffix(Labels(front), Labels(rest));
  }

  lemma AppendHasSuffix<T>(a: seq<T>, b: seq<T>)
    ensures HasSuffix(a + b, b)
  {
  }

  lemma LabelsToDottedSuffix(name: string, rest: string, front: seq<string>)
    requires |front| > 0 && Labels(name) == front + Labels(rest)
    ensures HasSuffix(name, "." + rest)
  {
    JoinSplit(name, '.');
    JoinSplit(rest, '.');
    JoinConcat(front, Labels(rest), '.');
    AppendHasSuffix(Join(front, '.'), "." + rest);
    assert name == Join(front, '.') + ("." + rest);
  }

  lemma DottedSuffixIsLabelSuffix(name: string, rest: string)
    ensures HasSuffix(name, "." + rest) <==> |Labels(name)| > |Labels(rest)| && HasSuffix(Labels(name), Labels(rest))
  {
    var l, r := Labels(name), Labels(rest);
    if HasSuffix(name, "." + rest) {
      var front := name[..|name| - |rest| - 1];
      assert name == front + "." + rest;
      DottedSuffixToLabels(front, rest);
    } else if |l| > |r| && HasSuffix(l, r) {
      assert l == l[..|l| - |r|] + r;
      LabelsToDottedSuffix(name, rest, l[..|l| - |r|]);
    }
  }

  lemma SameLabelsSameName(a: string, b: string)
    requires Labels(a) == Labels(b)
    ensures a == b
  {
    JoinSplit(a, '.');
    JoinSplit(b, '.');
  }

  lemma EntryMatch(entry: string, name: string)
    ensures (name in ExactOf(entry) || exists s :: s in SuffixOf(entry) && HasSuffix(name, s)) <==> Covers(entry, name)
  {
    var e := Canonical(entry);
    if e != "" {
      if e[0] == '.' {
        assert e == "." + e[1..];
        DottedSuffixIsLabelSuffix(name, e[1..]);
      } else {
        DottedSuffixIsLabelSuffix(name, e);
        if HasSuffix(Labels(name), Labels(e)) && |Labels(name)| <= |Labels(e)| {
          assert Labels(name) == Labels(e);
          SameLabelsSameName(name, e);
        }
      }
    }
  }

  /** The string lists match a lower-case name exactly when some entry's labels are a suffix of the name's. */
  lemma StringMatchIsLabelMatch(entries: seq<string>, name: string)
    ensures MatchesName(SplitDomains(entries), name) <==> CoveredByAny(entries, name)
  {
    var m := SplitDomains(entries);
    if MatchesName(m, name) {
      if name in m.exact {
        CollectMember(entries, ExactOf, name);
        var i :| 0 <= i < |entries| && name in ExactOf(entries[i]);
        EntryMatch(entries[i], name);
      } else {
        var k :| 0 <= k < |m.suffix| && HasSuffix(name, m.suffix[k]);
        CollectMember(entries, SuffixOf, m.suffix[k]);
        var i :| 0 <= i < |entries| && m.suffix[k] in SuffixOf(entries[i]);
        EntryMatch(entries[i], name);
      }
    }
    if CoveredByAny(entries, name) {
      var i :| 0 <= i < |entries| && Covers(entries[i], name);
      EntryMatch(entries[i], name);
      if name in ExactOf(entries[i]) {
        CollectMember(entries, ExactOf, name);
      } else {
        var s :| s in SuffixOf(entries[i]) && HasSuffix(name, s);
        CollectMember(entries, SuffixOf, s);
        var k :| 0 <= k < |m.suffix| && m.suffix[k] == s;
      }
    }
  }

  /** Both lists are empty exactly when no entry covers anything, so leaving the rule out loses nothing. */
  lemma EmptyListsCoverNothing(entries: seq<string>, name: string)
    requires SplitDomains(entries) == NameMatch([], [])
    ensures !CoveredByAny(entries, name)
  {
    StringMatchIsLabelMatch(entries, name);
  }
}
