/**
  The classification of store trait defaults (`check-store-defaults.py`): every default of the
  library is classified in the documentation, and each decision matches what the engine families
  implement.

  Sets are walked in some order; the order of the report is not modelled.
 */
module StoreDefaults {

  datatype Row = Row(owner: string, decision: string, why: string)

  datatype Problem =
    | TooFew(found: nat)
    | Unclassified(name: string)
    | Stale(name: string)
    | WrongTrait(name: string)
    | UnknownDecision(name: string)
    | NotImplemented(name: string, family: string)
    | Overridden(name: string, family: string)
    | NoReason(name: string)

  /** Method to trait; method to documented row; family to the methods it implements. */
  datatype Survey = Survey(defaults: map<string, string>, rows: map<string, Row>, impls: map<string, set<string>>)

  const Floor: nat := 36

  // ---------------------------------------------------------------- one row

  /** What is wrong with the row of `name`. */
  ghost predicate RowWrong(v: Survey, name: string, p: Problem)
    requires name in v.defaults && name in v.rows
  {
    var row := v.rows[name];
    match p
    case WrongTrait(n) => n == name && row.owner != v.defaults[name]
    case UnknownDecision(n) => n == name && row.decision != "override" && row.decision != "default"
    case NotImplemented(n, e) => n == name && row.decision == "override" && e in v.impls && name !in v.impls[e]
    case Overridden(n, e) => n == name && row.decision == "default" && e in v.impls && name in v.impls[e]
    case NoReason(n) => n == name && row.decision == "default" && row.why == ""
    case _ => false
  }

  /** One problem for each family that implements a default to be `kept`, or does not implement an override. */
  method FamilyProblems(impls: map<string, set<string>>, name: string, kept: bool) returns (out: seq<Problem>)
    ensures forall p :: p in out <==>
              (if kept then p.Overridden? else p.NotImplemented?) && p.name == name && p.family in impls
              && (name in impls[p.family] <==> kept)
  {
    out := [];
    var left := impls.Keys;
    while left != {}
      invariant left <= impls.Keys
      invariant forall p :: p in out <==>
                  (if kept then p.Overridden? else p.NotImplemented?) && p.name == name && p.family in impls
                  && p.family !in left && (name in impls[p.family] <==> kept)
      decreases |left|
    {
      var e :| e in left;
      left := left - {e};
      if name in impls[e] <==> kept {
        out := out + [if kept then Overridden(name, e) else NotImplemented(name, e)];
      }
    }
  }

  method RowProblems(v: Survey, name: string) returns (problems: seq<Problem>)
    requires name in v.defaults && name in v.rows
    ensures forall p :: p in problems <==> RowWrong(v, name, p)
  {
    var row := v.rows[name];
    problems := if row.owner != v.defaults[name] then [WrongTrait(name)] else [];
    if row.decision != "override" && row.decision != "default" {
      problems := problems + [UnknownDecision(name)];
      return;
    }
    if row.decision == "override" {
      var missing := FamilyProblems(v.impls, name, false);
      problems := problems + missing;
      return;
    }
    var overriding := FamilyProblems(v.impls, name, true);
    problems := problems + overriding;
    if row.why == "" {
      problems := problems + [NoReason(name)];
    }
  }

  // ---------------------------------------------------------------- the survey

  ghost predicate Wrong(v: Survey, p: Problem) {
    match p
    case TooFew(n) => n == |v.defaults| && n < Floor
    case Unclassified(n) => n in v.defaults && n !in v.rows
    case Stale(n) => n in v.rows && n !in v.defaults
    case _ => p.name in v.defaults && p.name in v.rows && RowWrong(v, p.name, p)
  }

  /** One problem for each name. */
  method Listed(names: set<string>, stale: bool) returns (problems: seq<Problem>)
    ensures forall p :: p in problems <==> (if stale then p.Stale? else p.Unclassified?) && p.name in names
  {
    problems := [];
    var left := names;
    while left != {}
      invariant left <= names
      invariant forall p :: p in problems <==> (if stale then p.Stale? else p.Unclassified?) && p.name in names - left
      decreases |left|
    {
      var n :| n in left;
      left := left - {n};
      problems := problems + [if stale then Stale(n) else Unclassified(n)];
    }
  }

  method EachRow(v: Survey, names: set<string>) returns (problems: seq<Problem>)
    requires names == v.defaults.Keys * v.rows.Keys
    ensures forall p :: p in problems <==> !p.TooFew? && p.name in names && RowWrong(v, p.name, p)
  {
    problems := [];
    var left := names;
    while left != {}
      invariant left <= names
      invariant forall p :: p in problems <==> !p.TooFew? && p.name in names - left && RowWrong(v, p.name, p)
      decreases |left|
    {
      var n :| n in left;
      left := left - {n};
      var own := RowProblems(v, n);
      problems := problems + own;
    }
  }

  /** Exactly what is wrong is reported. */
  method ClassificationProblems(v: Survey) returns (problems: seq<Problem>)
    ensures forall p :: p in problems <==> Wrong(v, p)
    ensures problems == [] <==> Classified(v)
  {
    problems := if |v.defaults| < Floor then [TooFew(|v.defaults|)] else [];
    var unclassified := Listed(v.defaults.Keys - v.rows.Keys, false);
    var stale := Listed(v.rows.Keys - v.defaults.Keys, true);
    var rows := EachRow(v, v.defaults.Keys * v.rows.Keys);
    problems := problems + unclassified + stale + rows;
    NothingWrongExactly(v);
    if problems != [] {
      assert problems[0] in problems;
    }
  }

  // ---------------------------------------------------------------- sound and complete

  /** At least the floor, the same names, the right trait, overrides implemented by every family, and
      kept defaults by none and for a reason. */
  ghost predicate Classified(v: Survey) {
    && |v.defaults| >= 36
    && v.defaults.Keys == v.rows.Keys
    && forall n :: n in v.defaults && n in v.rows ==>
         && v.rows[n].owner == v.defaults[n]
         && (v.rows[n].decision == "override" || v.rows[n].decision == "default")
         && (v.rows[n].decision == "override" ==> forall e :: e in v.impls ==> n in v.impls[e])
         && (v.rows[n].decision == "default" ==> v.rows[n].why != "" && forall e :: e in v.impls ==> n !in v.impls[e])
  }

  lemma {:induction false} NothingWrongExactly(v: Survey)
    ensures (forall p :: !Wrong(v, p)) <==> Classified(v)
  {
    if forall p :: !Wrong(v, p) {
      assert !Wrong(v, TooFew(|v.defaults|));
      forall n
        ensures n in v.defaults <==> n in v.rows
      {
        assert !Wrong(v, Unclassified(n)) && !Wrong(v, Stale(n));
      }
      forall n | n in v.defaults && n in v.rows
        ensures v.rows[n].owner == v.defaults[n]
        ensures v.rows[n].decision == "override" || v.rows[n].decision == "default"
        ensures v.rows[n].decision == "override" ==> forall e :: e in v.impls ==> n in v.impls[e]
        ensures v.rows[n].decision == "default" ==> v.rows[n].why != "" && forall e :: e in v.impls ==> n !in v.impls[e]
      {
        assert !Wrong(v, WrongTrait(n)) && !Wrong(v, UnknownDecision(n)) && !Wrong(v, NoReason(n));
        forall e | e in v.impls
          ensures v.rows[n].decision == "override" ==> n in v.impls[e]
          ensures v.rows[n].decision == "default" ==> n !in v.impls[e]
        {
          assert !Wrong(v, NotImplemented(n, e)) && !Wrong(v, Overridden(n, e));
        }
      }
    }
  }
}
