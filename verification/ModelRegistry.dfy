/** The model registry and its choice by tags (internal/infra/model/registry.go). Go visits a map in
    an arbitrary order; here each loop over one picks any key that is left. Lower-casing is a
    parameter. */
module ModelRegistry {
  import opened Wrappers
  import opened GoStrings
  import T = Texts

  // ---- The order of strings ----

  /** Go's a < b. */
  predicate Less(a: string, b: string) {
    b != [] && (a == [] || a[0] < b[0] || (a[0] == b[0] && Less(a[1..], b[1..])))
  }

  lemma {:induction false} LessTransitive(a: string, b: string, c: string)
    requires Less(a, b) && Less(b, c)
    ensures Less(a, c)
  {
    if a != [] && a[0] == b[0] == c[0] {
      LessTransitive(a[1..], b[1..], c[1..]);
    }
  }

  lemma {:induction false} LessTotal(a: string, b: string)
    ensures !(Less(a, b) && Less(b, a))
    ensures a == b <==> !Less(a, b) && !Less(b, a)
  {
    if a != [] && b != [] && a[0] == b[0] {
      LessTotal(a[1..], b[1..]);
      assert a == [a[0]] + a[1..] && b == [b[0]] + b[1..];
    }
  }

  /** The order of a dictionary: a is a proper beginning of b, or has the smaller character where
      they first differ. */
  lemma {:induction false} LessIff(a: string, b: string)
    ensures Less(a, b)
            <==> a < b || exists k :: 0 <= k < |a| && k < |b| && a[..k] == b[..k] && a[k] < b[k]
  {
    if a == [] || b == [] {
    } else {
      var a1, b1 := a[1..], b[1..];
      LessIff(a1, b1);
      assert a == [a[0]] + a1 && b == [b[0]] + b1;
      if a[0] == b[0] {
        assert a < b <==> a1 < b1;
        forall k | 0 <= k < |a| && k < |b| && a[..k] == b[..k] && a[k] < b[k]
          ensures 0 <= k - 1 < |a1| && k - 1 < |b1| && a1[..k - 1] == b1[..k - 1] && a1[k - 1] < b1[k - 1]
        {
          assert a1[..k - 1] == a[..k][1..] && b1[..k - 1] == b[..k][1..];
        }
        forall k | 0 <= k < |a1| && k < |b1| && a1[..k] == b1[..k] && a1[k] < b1[k]
          ensures a[..k + 1] == b[..k + 1] && a[k + 1] < b[k + 1]
        {
          assert a[..k + 1] == [a[0]] + a1[..k] && b[..k + 1] == [b[0]] + b1[..k];
        }
      } else {
        forall k | 0 < k < |a| && k < |b| ensures a[..k] != b[..k] {
          assert a[..k][0] == a[0] && b[..k][0] == b[0];
        }
        assert a[..0] == b[..0];
      }
    }
  }

  predicate Sorted(s: seq<string>) {
    forall i, j :: 0 <= i < j < |s| ==> Less(s[i], s[j])
  }

  lemma DistinctSnoc(s: seq<string>, x: string)
    ensures Elements(s + [x]) == Elements(s) + {x}
    ensures T.Distinct(s) && x !in Elements(s) ==> T.Distinct(s + [x])
  {
    var r := s + [x];
    assert r[|s|] == x && forall i :: 0 <= i < |s| ==> r[i] == s[i];
  }

  lemma DistinctPrefix(s: seq<string>, i: nat)
    requires T.Distinct(s) && i < |s|
    ensures s[i] !in Elements(s[..i])
  {
  }

  function Elements<T>(s: seq<T>): set<T> {
    set i | 0 <= i < |s| :: s[i]
  }

  /** Sorted tag lists are determined by their elements. */
  lemma {:induction false} SortedIsUnique(s: seq<string>, t: seq<string>)
    requires Sorted(s) && Sorted(t) && Elements(s) == Elements(t)
    ensures s == t
  {
    if s == [] {
      assert |t| > 0 ==> Elements(t) != {} by {
        FirstElement(t);
      }
    } else {
      assert s[0] in Elements(t);
      var k :| 0 <= k < |t| && t[k] == s[0];
      assert t[0] in Elements(s);
      var m :| 0 <= m < |s| && s[m] == t[0];
      LessTotal(s[0], t[0]);
      assert s[0] == t[0];
      RestElements(s);
      RestElements(t);
      SortedIsUnique(s[1..], t[1..]);
      assert s == [s[0]] + s[1..] && t == [t[0]] + t[1..];
    }
  }

  lemma FirstElement(s: seq<string>)
    ensures s != [] ==> s[0] in Elements(s)
  {
  }

  lemma RestElements(s: seq<string>)
    requires Sorted(s) && s != []
    ensures Sorted(s[1..]) && Elements(s[1..]) == Elements(s) - {s[0]}
  {
    var rest := s[1..];
    forall x | x in Elements(s) - {s[0]} ensures x in Elements(rest) {
      var i :| 0 <= i < |s| && s[i] == x;
      assert rest[i - 1] == x;
    }
    forall x | x in Elements(rest) ensures x in Elements(s) - {s[0]} {
      var i :| 0 <= i < |rest| && rest[i] == x;
      assert s[i + 1] == x;
      LessTotal(s[0], s[i + 1]);
    }
  }

  // ---- Registrations and rules ----

  datatype Registration = Registration(id: string, provider: string, modelName: string, tags: seq<string>,
      userTags: seq<string>)

  /** A query with the tags as the registry compares them. */
  datatype Rule = Rule(require: set<string>, prefer: set<string>, exclude: set<string>)

  predicate Qualifies(tags: set<string>, rule: Rule) {
    rule.require <= tags && tags !! rule.exclude
  }

  function Score(tags: set<string>, rule: Rule): nat {
    |tags * rule.prefer|
  }

  /** (s, a) wins over (t, b): more preferred tags, or as many and a smaller id. */
  predicate Wins(s: nat, a: string, t: nat, b: string) {
    s > t || (s == t && Less(a, b))
  }

  lemma WinsTransitive(s: nat, a: string, t: nat, b: string, u: nat, c: string)
    requires Wins(s, a, t, b) && Wins(t, b, u, c)
    ensures Wins(s, a, u, c)
  {
    if s == t == u {
      LessTransitive(a, b, c);
    }
  }

  class Registry {
    const lower: string -> string
    var byID: map<string, Registration>

    constructor (toLower: string -> string)
      ensures Valid() && byID == map[] && lower == toLower
    {
      lower, byID := toLower, map[];
    }

    function Norm(tag: string): string {
      TrimSpace(lower(tag))
    }

    function Norms(tags: seq<string>): set<string> {
      set i | 0 <= i < |tags| :: Norm(tags[i])
    }

    function TagsOf(reg: Registration): set<string> {
      Norms(reg.tags + reg.userTags)
    }

    /** Every entry is under its own id and names a model. */
    ghost predicate Valid()
      reads this
    {
      forall id :: id in byID ==> byID[id].id == id && byID[id].provider != "" && byID[id].modelName != ""
    }

    /** What registration makes of a tag list: its normal forms without the empty one, sorted. */
    ghost predicate IsNormalized(tags: seq<string>, r: seq<string>) {
      Sorted(r) && Elements(r) == Norms(tags) - {""}
    }

    method NormalizeTags(tags: seq<string>) returns (out: seq<string>)
      ensures IsNormalized(tags, out)
    {
      var seen: set<string> := {};
      out := [];
      for i := 0 to |tags|
        invariant seen == Elements(out) == Norms(tags[..i]) - {""}
        invariant T.Distinct(out)
      {
        NormsStep(tags, i);
        var t := Norm(tags[i]);
        if t == "" {
          continue;
        }
        if t in seen {
          continue;
        }
        seen := seen + {t};
        DistinctSnoc(out, t);
        out := out + [t];
      }
      assert tags[..|tags|] == tags;
      out := SortStrings(out);
    }

    method SortStrings(s: seq<string>) returns (r: seq<string>)
      requires T.Distinct(s)
      ensures Sorted(r) && Elements(r) == Elements(s)
    {
      r := [];
      for i := 0 to |s|
        invariant Sorted(r) && Elements(r) == Elements(s[..i])
      {
        assert s[..i + 1] == s[..i] + [s[i]];
        DistinctPrefix(s, i);
        DistinctSnoc(s[..i], s[i]);
        r := Insert(r, s[i]);
      }
      assert s[..|s|] == s;
    }

    lemma NormsStep(tags: seq<string>, i: nat)
      requires i < |tags|
      ensures Norms(tags[..i + 1]) == Norms(tags[..i]) + {Norm(tags[i])}
    {
      hide Norm;
      var a, b := tags[..i], tags[..i + 1];
      forall t | t in Norms(b) ensures t in Norms(a) + {Norm(tags[i])} {
        var k :| 0 <= k < |b| && Norm(b[k]) == t;
        assert k < i ==> a[k] == b[k];
      }
      forall t | t in Norms(a) + {Norm(tags[i])} ensures t in Norms(b) {
        if t in Norms(a) {
          var k :| 0 <= k < |a| && Norm(a[k]) == t;
          assert b[k] == a[k];
        } else {
          assert b[i] == tags[i];
        }
      }
    }

    method Insert(s: seq<string>, t: string) returns (r: seq<string>)
      requires Sorted(s) && t !in Elements(s)
      ensures Sorted(r) && Elements(r) == Elements(s) + {t}
    {
      var i := 0;
      while i < |s| && Less(s[i], t)
        invariant 0 <= i <= |s|
        invariant forall k :: 0 <= k < i ==> Less(s[k], t)
      {
        i := i + 1;
      }
      r := s[..i] + [t] + s[i..];
      InsertedIsSorted(s, t, i);
    }

    lemma InsertedIsSorted(s: seq<string>, t: string, i: nat)
      requires Sorted(s) && t !in Elements(s) && i <= |s|
      requires forall k :: 0 <= k < i ==> Less(s[k], t)
      requires i < |s| ==> !Less(s[i], t)
      ensures var r := s[..i] + [t] + s[i..]; Sorted(r) && Elements(r) == Elements(s) + {t}
    {
      var r := s[..i] + [t] + s[i..];
      forall k | i <= k < |s| ensures Less(t, s[k]) {
        assert s[i] in Elements(s);
        LessTotal(s[i], t);
        if k > i {
          LessTransitive(t, s[i], s[k]);
        }
      }
      forall x | x in Elements(s) + {t} ensures x in Elements(r) {
        if x == t {
          assert r[i] == t;
        } else {
          var k :| 0 <= k < |s| && s[k] == x;
          assert r[if k < i then k else k + 1] == x;
        }
      }
      forall x | x in Elements(r) ensures x in Elements(s) + {t} {
        var k :| 0 <= k < |r| && r[k] == x;
        assert k != i ==> s[if k < i then k else k - 1] == x;
      }
    }

    method Register(reg: Registration) returns (ok: bool)
      requires Valid()
      modifies this
      ensures Valid()
      ensures ok <==> TrimSpace(reg.id) != "" && TrimSpace(reg.provider) != "" && TrimSpace(reg.modelName) != ""
      ensures !ok ==> byID == old(byID)
      ensures ok ==> var id := TrimSpace(reg.id);
                     && id in byID && byID == old(byID)[id := byID[id]]
                     && byID[id] == Registration(id, reg.provider, reg.modelName, byID[id].tags, byID[id].userTags)
                     && IsNormalized(reg.tags, byID[id].tags) && IsNormalized(reg.userTags, byID[id].userTags)
    {
      var id := TrimSpace(reg.id);
      if id == "" {
        return false;
      }
      if TrimSpace(reg.provider) == "" {
        return false;
      }
      if TrimSpace(reg.modelName) == "" {
        return false;
      }
      TrimSpaceMeans(reg.provider);
      TrimSpaceMeans(reg.modelName);
      hide TrimSpace, Norm;
      var tags := NormalizeTags(reg.tags);
      var userTags := NormalizeTags(reg.userTags);
      byID := byID[id := Registration(id, reg.provider, reg.modelName, tags, userTags)];
      ok := true;
    }

    method Unregister(id: string)
      requires Valid()
      modifies this
      ensures Valid() && byID == old(byID) - {id}
    {
      byID := byID - {id};
    }

    // ---- The helpers of a query ----

    method ToSet(tags: seq<string>) returns (out: set<string>)
      ensures out == Norms(tags)
    {
      out := {};
      for i := 0 to |tags|
        invariant out == Norms(tags[..i])
      {
        NormsStep(tags, i);
        out := out + {Norm(tags[i])};
      }
      assert tags[..|tags|] == tags;
    }

    static method HasAny(tags: set<string>, exclude: set<string>) returns (r: bool)
      ensures r <==> !(tags !! exclude)
    {
      var left := tags;
      while left != {}
        invariant left <= tags && (tags - left) !! exclude
        decreases left
      {
        var t :| t in left;
        if t in exclude {
          return true;
        }
        left := left - {t};
      }
      r := false;
    }

    static method ContainsAll(tags: set<string>, require: set<string>) returns (r: bool)
      ensures r <==> require <= tags
    {
      var left := require;
      while left != {}
        invariant left <= require && require - left <= tags
        decreases left
      {
        var t :| t in left;
        if t !in tags {
          return false;
        }
        left := left - {t};
      }
      r := true;
    }

    static method CountMatches(tags: set<string>, prefer: set<string>) returns (count: nat)
      ensures count == |tags * prefer|
    {
      count := 0;
      var left := tags;
      while left != {}
        invariant left <= tags && count == |(tags - left) * prefer|
        decreases left
      {
        var t :| t in left;
        ghost var before := (tags - left) * prefer;
        left := left - {t};
        if t in prefer {
          count := count + 1;
          assert (tags - left) * prefer == before + {t};
        } else {
          assert (tags - left) * prefer == before;
        }
      }
    }

    // ---- The query ----

    /** id is the choice among some ids of the registry. */
    ghost predicate IsBest(among: set<string>, rule: Rule, id: string)
      reads this
      requires among <= byID.Keys
    {
      && id in among && Qualifies(TagsOf(byID[id]), rule)
      && forall other :: other in among && other != id && Qualifies(TagsOf(byID[other]), rule) ==>
           Wins(Score(TagsOf(byID[id]), rule), id, Score(TagsOf(byID[other]), rule), other)
    }

    ghost predicate NoneQualifies(among: set<string>, rule: Rule)
      reads this
      requires among <= byID.Keys
    {
      forall id :: id in among ==> !Qualifies(TagsOf(byID[id]), rule)
    }

    /** There is at most one choice, so that the order of the visit cannot matter. */
    lemma BestIsUnique(rule: Rule, a: string, b: string)
      requires IsBest(byID.Keys, rule, a) && IsBest(byID.Keys, rule, b)
      ensures a == b
    {
      if a != b {
        LessTotal(a, b);
      }
    }

    /** Tags that differ only in case and white space around them are one tag. */
    lemma NormIs(tag: string, a: string, t: string, b: string)
      requires lower(tag) == a + t + b && Blank(a) && Blank(b) && (t == "" || Tight(t))
      ensures Norm(tag) == t
    {
      if t == "" {
        TrimSpaceMeans(a + t + b);
      } else {
        TrimOfMiddle(a, t, b);
      }
    }

    /** The tags of a model, its own and those of the user, as the registry compares them. */
    ghost predicate HasTag(id: string, tag: string)
      reads this
      requires id in byID
    {
      (exists t :: t in byID[id].tags && Norm(t) == tag) || exists t :: t in byID[id].userTags && Norm(t) == tag
    }

    ghost predicate Meets(id: string, rule: Rule)
      reads this
      requires id in byID
    {
      (forall tag :: tag in rule.require ==> HasTag(id, tag)) && forall tag :: tag in rule.exclude ==> !HasTag(id, tag)
    }

    lemma TagsOfIff(id: string, tag: string)
      requires id in byID
      ensures tag in TagsOf(byID[id]) <==> HasTag(id, tag)
    {
      var reg := byID[id];
      var all := reg.tags + reg.userTags;
      hide Norm;
      if tag in TagsOf(reg) {
        var i :| 0 <= i < |all| && Norm(all[i]) == tag;
        assert all[i] in reg.tags || all[i] in reg.userTags;
      }
      if HasTag(id, tag) {
        var t :| (t in reg.tags || t in reg.userTags) && Norm(t) == tag;
        assert t in all;
        var i :| 0 <= i < |all| && all[i] == t;
      }
    }

    lemma QualifiesIff(id: string, rule: Rule)
      requires id in byID
      ensures Qualifies(TagsOf(byID[id]), rule) <==> Meets(id, rule)
    {
      hide TagsOf, HasTag;
      forall tag ensures tag in TagsOf(byID[id]) <==> HasTag(id, tag) {
        TagsOfIff(id, tag);
      }
    }

    /** What the best model is: it has all required tags and no excluded one, and every other such model
        has fewer of the preferred tags, or as many and a later id in the order of a dictionary. */
    lemma BestIff(rule: Rule, id: string)
      requires id in byID
      ensures IsBest(byID.Keys, rule, id)
              <==> Meets(id, rule)
                   && forall other :: other in byID && other != id && Meets(other, rule) ==>
                        var mine, its := |TagsOf(byID[id]) * rule.prefer|, |TagsOf(byID[other]) * rule.prefer|;
                        mine > its || (mine == its && (id < other || exists k :: 0 <= k < |id| && k < |other|
                                                                        && id[..k] == other[..k] && id[k] < other[k]))
    {
      hide TagsOf, Meets, Qualifies, Less;
      QualifiesIff(id, rule);
      forall other | other in byID
        ensures Qualifies(TagsOf(byID[other]), rule) <==> Meets(other, rule)
        ensures Less(id, other) <==> id < other || exists k :: 0 <= k < |id| && k < |other|
                                                              && id[..k] == other[..k] && id[k] < other[k]
      {
        QualifiesIff(other, rule);
        LessIff(id, other);
      }
    }

    /** The choice after visiting some ids. */
    ghost predicate Chosen(among: set<string>, rule: Rule, best: Option<Registration>, bestScore: nat)
      reads this
      requires among <= byID.Keys
    {
      match best
      case None => NoneQualifies(among, rule)
      case Some(reg) =>
        reg.id in byID && byID[reg.id] == reg && IsBest(among, rule, reg.id) && bestScore == Score(TagsOf(reg), rule)
    }

    /** What the loop does with one model: the checks of the exclude and require lists, and the score. */
    method Rate(reg: Registration, rule: Rule) returns (qualifies: bool, score: nat)
      ensures qualifies <==> Qualifies(TagsOf(reg), rule)
      ensures qualifies ==> score == Score(TagsOf(reg), rule)
    {
      hide Norms;
      score := 0;
      var regTags := ToSet(reg.tags + reg.userTags);
      var excluded := HasAny(regTags, rule.exclude);
      if excluded {
        return false, 0;
      }
      qualifies := ContainsAll(regTags, rule.require);
      if qualifies {
        score := CountMatches(regTags, rule.prefer);
      }
    }

    method QueryBestModel(require: seq<string>, prefer: seq<string>, exclude: seq<string>)
      returns (provider: string, modelName: string)
      requires Valid()
      ensures var rule := Rule(Norms(require), Norms(prefer), Norms(exclude));
              if NoneQualifies(byID.Keys, rule) then provider == modelName == ""
              else provider != "" && exists id :: id in byID && IsBest(byID.Keys, rule, id)
                                                  && provider == byID[id].provider && modelName == byID[id].modelName
    {
      hide Norms, Less, IsBest, NoneQualifies, Chosen;
      var requireSet := ToSet(require);
      var preferSet := ToSet(prefer);
      var excludeSet := ToSet(exclude);
      var rule := Rule(requireSet, preferSet, excludeSet);
      var best: Option<Registration> := None;
      var bestScore := 0;
      var left := byID.Keys;
      NothingVisited(rule);
      while left != {}
        invariant left <= byID.Keys && Chosen(byID.Keys - left, rule, best, bestScore)
        decreases left
      {
        var id :| id in left;
        var reg := byID[id];
        Visit(rule, byID.Keys - left, best, bestScore, id);
        assert byID.Keys - (left - {id}) == (byID.Keys - left) + {id};
        left := left - {id};
        var qualifies, score := Rate(reg, rule);
        if !qualifies {
          continue;
        }
        if best.None? || score > bestScore || (score == bestScore && Less(reg.id, best.value.id)) {
          best := Some(reg);
          bestScore := score;
        }
      }
      assert byID.Keys - left == byID.Keys;
      ChosenMeans(byID.Keys, rule, best, bestScore);
      if best.None? {
        return "", "";
      }
      return best.value.provider, best.value.modelName;
    }

    lemma NothingVisited(rule: Rule)
      ensures Chosen(byID.Keys - byID.Keys, rule, None, 0)
    {
    }

    lemma ChosenMeans(among: set<string>, rule: Rule, best: Option<Registration>, bestScore: nat)
      requires among <= byID.Keys && Chosen(among, rule, best, bestScore)
      ensures best.None? <==> NoneQualifies(among, rule)
      ensures best.Some? ==>
              best.value.id in byID && byID[best.value.id] == best.value && IsBest(among, rule, best.value.id)
    {
    }

    /** One more model: it is skipped, or wins, or loses. */
    lemma Visit(rule: Rule, seen: set<string>, best: Option<Registration>, bestScore: nat, id: string)
      requires Valid() && seen <= byID.Keys && Chosen(seen, rule, best, bestScore) && id in byID && id !in seen
      ensures var reg := byID[id];
              var score := Score(TagsOf(reg), rule);
              if Qualifies(TagsOf(reg), rule) && (best.None? || Wins(score, reg.id, bestScore, best.value.id)) then
                Chosen(seen + {id}, rule, Some(reg), score)
              else
                Chosen(seen + {id}, rule, best, bestScore)
    {
      hide Less, TagsOf, Qualifies, Score, Wins;
      if best.Some? && Qualifies(TagsOf(byID[id]), rule) {
        ChallengerOrBest(rule, seen, best.value.id, id);
      }
    }

    lemma ChallengerOrBest(rule: Rule, seen: set<string>, best: string, id: string)
      requires seen <= byID.Keys && IsBest(seen, rule, best) && id in byID && id !in seen
               && Qualifies(TagsOf(byID[id]), rule)
      ensures var s, t := Score(TagsOf(byID[id]), rule), Score(TagsOf(byID[best]), rule);
              if Wins(s, id, t, best) then IsBest(seen + {id}, rule, id) else IsBest(seen + {id}, rule, best)
    {
      hide Less, TagsOf, Qualifies, Score;
      var s, t := Score(TagsOf(byID[id]), rule), Score(TagsOf(byID[best]), rule);
      LessTotal(id, best);
      if Wins(s, id, t, best) {
        forall other | other in seen && other != best && Qualifies(TagsOf(byID[other]), rule)
          ensures Wins(s, id, Score(TagsOf(byID[other]), rule), other)
        {
          WinsTransitive(s, id, t, best, Score(TagsOf(byID[other]), rule), other);
        }
      }
    }
  }
}
