/** The post-processing pipeline of the RealSense node, built from a comma-separated list of names. */
module Filters {
  import opened Common

  // ---------- Reading the list ----------

  predicate IsSpace(c: char)
  {
    c == ' ' || c == '\t' || c == '\n' || c == '\r' || c == 11 as char || c == 12 as char
  }

  function RemoveSpaces(s: string): string
  {
    if s == "" then "" else (if IsSpace(s[0]) then "" else [s[0]]) + RemoveSpaces(s[1..])
  }

  // Splitting at every comma: one piece more than there are commas.
  function Split(s: string): (r: seq<string>)
    ensures |r| > 0
  {
    if s == "" then [""]
    else if s[0] == ',' then [""] + Split(s[1..])
    else
      var rest := Split(s[1..]);
      [[s[0]] + rest[0]] + rest[1..]
  }

  // What a piece of the list names.
  datatype Token =
    | Colorizer | Disparity | Decimation | HdrMerge | Pointcloud
    | Spatial | Temporal | HoleFilling
    | Nothing
    | Unknown(name: string)

  function Recognize(s: string): Token
  {
    if s == "colorizer" then Colorizer
    else if s == "disparity" then Disparity
    else if s == "spatial" then Spatial
    else if s == "temporal" then Temporal
    else if s == "hole_filling" then HoleFilling
    else if s == "decimation" then Decimation
    else if s == "pointcloud" then Pointcloud
    else if s == "hdr_merge" then HdrMerge
    else if |s| > 0 then Unknown(s)
    else Nothing
  }

  function Tokens(s: string): seq<Token>
  {
    var pieces := Split(s);
    seq(|pieces|, i requires 0 <= i < |pieces| => Recognize(RemoveSpaces(pieces[i])))
  }

  // ---------- The pipeline ----------

  datatype Filter =
    | DecimationFilter
    | SequenceIdFilter | HdrMergeFilter
    | DisparityStart
    | SpatialFilter | TemporalFilter | HoleFillingFilter
    | DisparityEnd
    | AlignToColor | ColorizerFilter | PointcloudFilter

  datatype Outcome = Built(filters: seq<Filter>) | UnknownFilter(name: string) | AssertionFailed

  // Some tokens add a filter where they stand; the rest only set a flag.
  function Added(t: Token): seq<Filter>
  {
    match t
    case Spatial => [SpatialFilter]
    case Temporal => [TemporalFilter]
    case HoleFilling => [HoleFillingFilter]
    case _ => []
  }

  function Stages(tokens: seq<Token>): seq<Filter>
  {
    if tokens == [] then [] else Stages(tokens[..|tokens| - 1]) + Added(tokens[|tokens| - 1])
  }

  function When(b: bool, filters: seq<Filter>): seq<Filter>
  {
    if b then filters else []
  }

  function Front(decimation: bool, hdr: bool, disparity: bool): seq<Filter>
  {
    When(decimation, [DecimationFilter]) +
    When(hdr, [SequenceIdFilter, HdrMergeFilter]) +
    When(disparity, [DisparityStart])
  }

  function Back(disparity: bool, alignDepth: bool, colorizer: bool, pointcloud: bool): seq<Filter>
  {
    When(disparity, [DisparityEnd]) + When(alignDepth, [AlignToColor]) + When(colorizer, [ColorizerFilter]) +
    When(pointcloud, [PointcloudFilter])
  }

  /** The pipeline in closed form: decimation, high dynamic range and the way into the disparity domain,
      the stages in the order given, then the way back and what follows. */
  function Pipeline(tokens: seq<Token>, alignDepth: bool, pointcloud: bool): seq<Filter>
  {
    Front(Decimation in tokens, HdrMerge in tokens, Disparity in tokens) +
    (Stages(tokens) + Back(Disparity in tokens, alignDepth, Colorizer in tokens, pointcloud))
  }

  predicate Allowed(t: Token, pointcloud: bool)
  {
    !t.Unknown? && (t == Pointcloud ==> pointcloud)
  }

  // The first token that stops the construction, if any.
  function Offence(tokens: seq<Token>, pointcloud: bool): (r: nat)
    ensures r <= |tokens|
  {
    if tokens == [] then 0
    else if !Allowed(tokens[0], pointcloud) then 0
    else 1 + Offence(tokens[1..], pointcloud)
  }

  function Expected(tokens: seq<Token>, alignDepth: bool, pointcloud: bool): Outcome
  {
    var k := Offence(tokens, pointcloud);
    if k == |tokens| then Built(Pipeline(tokens, alignDepth, pointcloud))
    else if tokens[k].Unknown? then UnknownFilter(tokens[k].name)
    else AssertionFailed
  }

  lemma {:induction false} OffenceIsFirst(tokens: seq<Token>, pointcloud: bool, k: nat)
    requires k < |tokens| && !Allowed(tokens[k], pointcloud)
    requires AllAllowed(tokens[..k], pointcloud)
    ensures Offence(tokens, pointcloud) == k
  {
    if k > 0 {
      assert tokens[0] in tokens[..k];
      assert forall t :: t in tokens[1..][..k - 1] ==> t in tokens[..k];
      OffenceIsFirst(tokens[1..], pointcloud, k - 1);
    }
  }

  lemma {:induction false} NoOffence(tokens: seq<Token>, pointcloud: bool)
    ensures Offence(tokens, pointcloud) == |tokens| <==> AllAllowed(tokens, pointcloud)
    ensures Offence(tokens, pointcloud) < |tokens| ==> !Allowed(tokens[Offence(tokens, pointcloud)], pointcloud)
  {
    if tokens != [] {
      NoOffence(tokens[1..], pointcloud);
      assert forall t :: t in tokens <==> t == tokens[0] || t in tokens[1..];
    }
  }

  /** A pipeline is built exactly when every token is known or empty and the token pointcloud comes
      only with the point cloud enabled. */
  lemma BuiltIff(tokens: seq<Token>, alignDepth: bool, pointcloud: bool)
    ensures Expected(tokens, alignDepth, pointcloud).Built? <==>
            forall t :: t in tokens ==> !t.Unknown? && (t == Pointcloud ==> pointcloud)
  {
    NoOffence(tokens, pointcloud);
  }

  // The token at k is the first that is not allowed, and it is unknown, with this name.
  ghost predicate FirstUnknown(tokens: seq<Token>, pointcloud: bool, name: string, k: nat)
  {
    && k < |tokens| && tokens[k] == Unknown(name)
    && forall j :: 0 <= j < k ==> !tokens[j].Unknown? && (tokens[j] == Pointcloud ==> pointcloud)
  }

  /** An unknown name is reported exactly when it is the first thing wrong with the list. */
  lemma UnknownIff(tokens: seq<Token>, alignDepth: bool, pointcloud: bool, name: string)
    ensures Expected(tokens, alignDepth, pointcloud) == UnknownFilter(name) <==>
            exists k: nat :: FirstUnknown(tokens, pointcloud, name, k)
  {
    hide Pipeline;
    var k := Offence(tokens, pointcloud);
    NoOffence(tokens, pointcloud);
    if k < |tokens| && tokens[k] == Unknown(name) {
      forall j | 0 <= j < k ensures Allowed(tokens[j], pointcloud) { OffenceBounds(tokens, pointcloud, j); }
      assert FirstUnknown(tokens, pointcloud, name, k);
    }
    if n: nat :| FirstUnknown(tokens, pointcloud, name, n) {
      OffenceBounds(tokens, pointcloud, n);
    }
  }

  /** The pipeline written out: which filters there are and in which order. */
  lemma ClosedForm(tokens: seq<Token>, alignDepth: bool, pointcloud: bool)
    ensures Pipeline(tokens, alignDepth, pointcloud) ==
            (if Decimation in tokens then [DecimationFilter] else []) +
            (if HdrMerge in tokens then [SequenceIdFilter, HdrMergeFilter] else []) +
            (if Disparity in tokens then [DisparityStart] else []) +
            Stages(tokens) +
            (if Disparity in tokens then [DisparityEnd] else []) +
            (if alignDepth then [AlignToColor] else []) +
            (if Colorizer in tokens then [ColorizerFilter] else []) +
            (if pointcloud then [PointcloudFilter] else [])
  {
    hide Stages;
    var a := Front(Decimation in tokens, HdrMerge in tokens, Disparity in tokens);
    var s := Stages(tokens);
    Spread(a, s, When(Disparity in tokens, [DisparityEnd]), When(alignDepth, [AlignToColor]),
           When(Colorizer in tokens, [ColorizerFilter]), When(pointcloud, [PointcloudFilter]));
  }

  lemma Spread(a: seq<Filter>, s: seq<Filter>, d: seq<Filter>, e: seq<Filter>, f: seq<Filter>, g: seq<Filter>)
    ensures a + (s + (d + e + f + g)) == a + s + d + e + f + g
  {
  }

  /** Where each stage comes from: the token at k adds its own stage after those of the tokens before it,
      and a token that names no stage adds none. */
  lemma StageOf(tokens: seq<Token>, k: nat)
    requires k < |tokens|
    ensures var n := |Stages(tokens[..k])|;
            && n <= |Stages(tokens)|
            && (tokens[k] == Spatial ==> n < |Stages(tokens)| && Stages(tokens)[n] == SpatialFilter)
            && (tokens[k] == Temporal ==> n < |Stages(tokens)| && Stages(tokens)[n] == TemporalFilter)
            && (tokens[k] == HoleFilling ==> n < |Stages(tokens)| && Stages(tokens)[n] == HoleFillingFilter)
            && (tokens[k] !in {Spatial, Temporal, HoleFilling} ==> |Stages(tokens[..k + 1])| == n)
            && (tokens[k] in {Spatial, Temporal, HoleFilling} ==> |Stages(tokens[..k + 1])| == n + 1)
  {
    OneMore(tokens, k, false);
    StagesGrow(tokens, k + 1);
  }

  lemma {:induction false} StagesGrow(tokens: seq<Token>, k: nat)
    requires k <= |tokens|
    ensures Stages(tokens[..k]) <= Stages(tokens)
    decreases |tokens| - k
  {
    if k < |tokens| {
      OneMore(tokens, k, false);
      StagesGrow(tokens, k + 1);
    } else {
      assert tokens[..k] == tokens;
    }
  }

  // ---------- What the list says ----------

  /** The names that are recognised, letter by letter. */
  lemma Names(s: string)
    ensures Recognize(s) == Colorizer <==> s == "colorizer"
    ensures Recognize(s) == Disparity <==> s == "disparity"
    ensures Recognize(s) == Spatial <==> s == "spatial"
    ensures Recognize(s) == Temporal <==> s == "temporal"
    ensures Recognize(s) == HoleFilling <==> s == "hole_filling"
    ensures Recognize(s) == Decimation <==> s == "decimation"
    ensures Recognize(s) == Pointcloud <==> s == "pointcloud"
    ensures Recognize(s) == HdrMerge <==> s == "hdr_merge"
    ensures Recognize(s) == Nothing <==> s == ""
    ensures Recognize(s).Unknown? ==> Recognize(s).name == s
  {
  }

  /** Spaces are removed character by character, those of the C locale and no others. */
  lemma OneCharacter(c: char)
    ensures RemoveSpaces([c]) ==
            if c == ' ' || c == '\t' || c == '\n' || c == 11 as char || c == 12 as char || c == '\r' then "" else [c]
  {
    assert RemoveSpaces([c][1..]) == "";
  }

  // The pieces with a comma between each two.
  function Joined(pieces: seq<string>): string
    requires pieces != []
  {
    if |pieces| == 1 then pieces[0] else pieces[0] + "," + Joined(pieces[1..])
  }

  /** Splitting undoes joining: a list written of pieces without commas is read as those pieces. */
  lemma {:induction false} SplitJoined(pieces: seq<string>)
    requires pieces != [] && forall p :: p in pieces ==> ',' !in p
    ensures Split(Joined(pieces)) == pieces
  {
    assert pieces[0] in pieces;
    if |pieces| == 1 {
      NoComma(pieces[0]);
    } else {
      SplitJoined(pieces[1..]);
      SplitAtComma(pieces[0], Joined(pieces[1..]));
      assert pieces[0] + "," + Joined(pieces[1..]) == pieces[0] + ("," + Joined(pieces[1..]));
    }
  }

  lemma {:induction false} SplitAtComma(p: string, rest: string)
    requires ',' !in p
    ensures Split(p + ("," + rest)) == [p] + Split(rest)
  {
    var s := p + ("," + rest);
    if p == "" {
      assert s[0] == ',' && s[1..] == rest;
    } else {
      SplitAtComma(p[1..], rest);
      assert s[1..] == p[1..] + ("," + rest) && s[0] == p[0] != ',';
      assert [p[0]] + p[1..] == p;
    }
  }

  /** Joining undoes splitting, and no piece contains a comma. */
  lemma {:induction false} JoinedSplit(s: string)
    ensures Joined(Split(s)) == s && forall k :: 0 <= k < |Split(s)| ==> ',' !in Split(s)[k]
  {
    if s != "" {
      var rest := Split(s[1..]);
      JoinedSplit(s[1..]);
      if s[0] == ',' {
        assert ([""] + rest)[1..] == rest;
      } else {
        var t := [[s[0]] + rest[0]] + rest[1..];
        if |rest| > 1 {
          assert t[1..] == rest[1..];
          assert Joined(rest) == rest[0] + "," + Joined(rest[1..]);
          assert Joined(t) == [s[0]] + rest[0] + "," + Joined(rest[1..]);
        }
        assert [s[0]] + s[1..] == s;
      }
    }
  }

  /** A list is read piece by piece, each with its spaces removed. */
  lemma TokensOf(pieces: seq<string>, k: nat)
    requires k < |pieces| && forall p :: p in pieces ==> ',' !in p
    ensures |Tokens(Joined(pieces))| == |pieces|
    ensures Tokens(Joined(pieces))[k] == Recognize(RemoveSpaces(pieces[k]))
  {
    SplitJoined(pieces);
  }

  // ---------- What the pipeline depends on ----------

  predicate IsStage(f: Filter) { f == SpatialFilter || f == TemporalFilter || f == HoleFillingFilter }

  // The stages of a pipeline, in order.
  function StagesOf(p: seq<Filter>): seq<Filter>
  {
    if p == [] then [] else (if IsStage(p[0]) then [p[0]] else []) + StagesOf(p[1..])
  }

  lemma {:induction false} StagesOfConcat(a: seq<Filter>, b: seq<Filter>)
    ensures StagesOf(a + b) == StagesOf(a) + StagesOf(b)
  {
    if a == [] {
      assert a + b == b;
    } else {
      assert (a + b)[1..] == a[1..] + b;
      StagesOfConcat(a[1..], b);
      Regroup(if IsStage(a[0]) then [a[0]] else [], StagesOf(a[1..]), StagesOf(b));
    }
  }

  lemma {:induction false} StagesOfStages(tokens: seq<Token>)
    ensures StagesOf(Stages(tokens)) == Stages(tokens)
  {
    if tokens != [] {
      var u, x := tokens[..|tokens| - 1], tokens[|tokens| - 1];
      StagesOfStages(u);
      StagesOfConcat(Stages(u), Added(x));
      AddedIsStage(x);
    }
  }

  lemma {:induction false} OnlyStages(tokens: seq<Token>)
    ensures forall f :: f in Stages(tokens) ==> IsStage(f)
  {
    if tokens != [] { OnlyStages(tokens[..|tokens| - 1]); }
  }

  lemma AddedIsStage(t: Token)
    ensures StagesOf(Added(t)) == Added(t)
  {
    if Added(t) != [] { assert Added(t)[1..] == []; }
  }

  lemma {:induction false} StagesOfNone(p: seq<Filter>)
    requires forall f :: f in p ==> !IsStage(f)
    ensures StagesOf(p) == []
  {
    if p != [] { StagesOfNone(p[1..]); }
  }

  lemma FrontFacts(decimation: bool, hdr: bool, disparity: bool)
    ensures var a := Front(decimation, hdr, disparity);
            && StagesOf(a) == []
            && (DecimationFilter in a <==> decimation)
            && (HdrMergeFilter in a <==> hdr)
            && (DisparityStart in a <==> disparity)
            && ColorizerFilter !in a
  {
    StagesOfNone(Front(decimation, hdr, disparity));
  }

  lemma BackFacts(disparity: bool, alignDepth: bool, colorizer: bool, pointcloud: bool)
    ensures var b := Back(disparity, alignDepth, colorizer, pointcloud);
            && StagesOf(b) == []
            && DecimationFilter !in b && HdrMergeFilter !in b && DisparityStart !in b
            && (ColorizerFilter in b <==> colorizer)
  {
    StagesOfNone(Back(disparity, alignDepth, colorizer, pointcloud));
  }

  /** The pipeline gives back the list it was built from: its stages in order, and whether each flag
      was set. */
  lemma PipelineDetermines(tokens: seq<Token>, alignDepth: bool, pointcloud: bool)
    ensures var p := Pipeline(tokens, alignDepth, pointcloud);
            && StagesOf(p) == Stages(tokens)
            && (DecimationFilter in p <==> Decimation in tokens)
            && (HdrMergeFilter in p <==> HdrMerge in tokens)
            && (DisparityStart in p <==> Disparity in tokens)
            && (ColorizerFilter in p <==> Colorizer in tokens)
  {
    hide Front, Back, Stages, StagesOf;
    var a, s := Front(Decimation in tokens, HdrMerge in tokens, Disparity in tokens), Stages(tokens);
    var b := Back(Disparity in tokens, alignDepth, Colorizer in tokens, pointcloud);
    FrontFacts(Decimation in tokens, HdrMerge in tokens, Disparity in tokens);
    BackFacts(Disparity in tokens, alignDepth, Colorizer in tokens, pointcloud);
    StagesOfStages(tokens);
    OnlyStages(tokens);
    StagesOfConcat(a, s + b);
    StagesOfConcat(s, b);
  }

  ghost predicate SameFlags(a: seq<Token>, b: seq<Token>)
  {
    && (Decimation in a <==> Decimation in b)
    && (HdrMerge in a <==> HdrMerge in b)
    && (Disparity in a <==> Disparity in b)
    && (Colorizer in a <==> Colorizer in b)
  }

  /** Two lists give the same pipeline if and only if they name the same stages in the same order and
      set the same flags: where a flag stands, and how often, never matters. */
  lemma SamePipelineIff(a: seq<Token>, b: seq<Token>, alignDepth: bool, pointcloud: bool)
    ensures Pipeline(a, alignDepth, pointcloud) == Pipeline(b, alignDepth, pointcloud) <==>
            Stages(a) == Stages(b) && SameFlags(a, b)
  {
    PipelineDetermines(a, alignDepth, pointcloud);
    PipelineDetermines(b, alignDepth, pointcloud);
  }

  // ---------- The code ----------

  // The flags set by a list of tokens.
  datatype Flags = Flags(disparity: bool, colorizer: bool, decimation: bool, hdr: bool)

  function FlagsOf(tokens: seq<Token>): Flags
  {
    Flags(Disparity in tokens, Colorizer in tokens, Decimation in tokens, HdrMerge in tokens)
  }

  function Noted(f: Flags, t: Token): Flags
  {
    match t
    case Disparity => f.(disparity := true)
    case Colorizer => f.(colorizer := true)
    case Decimation => f.(decimation := true)
    case HdrMerge => f.(hdr := true)
    case _ => f
  }

  lemma OneMore(tokens: seq<Token>, k: nat, pointcloud: bool)
    requires k < |tokens|
    ensures Stages(tokens[..k + 1]) == Stages(tokens[..k]) + Added(tokens[k])
    ensures FlagsOf(tokens[..k + 1]) == Noted(FlagsOf(tokens[..k]), tokens[k])
    ensures AllAllowed(tokens[..k + 1], pointcloud) <==>
            AllAllowed(tokens[..k], pointcloud) && Allowed(tokens[k], pointcloud)
  {
    assert tokens[..k + 1] == tokens[..k] + [tokens[k]];
    assert (tokens[..k] + [tokens[k]])[..k] == tokens[..k];
    assert forall t :: t in tokens[..k + 1] <==> t in tokens[..k] || t == tokens[k];
  }

  ghost predicate AllAllowed(tokens: seq<Token>, pointcloud: bool)
  {
    forall t :: t in tokens ==> Allowed(t, pointcloud)
  }

  lemma NoFlags()
    ensures FlagsOf([]) == Flags(false, false, false, false)
  {
  }

  lemma PipelineIs(tokens: seq<Token>, alignDepth: bool, pointcloud: bool)
    ensures var f := FlagsOf(tokens);
            Pipeline(tokens, alignDepth, pointcloud) ==
            Front(f.decimation, f.hdr, f.disparity) +
            (Stages(tokens) + Back(f.disparity, alignDepth, f.colorizer, pointcloud))
  {
  }

  method SetupFilters(filtersStr: string, alignDepth: bool, pointcloud: bool) returns (r: Outcome)
    ensures r == Expected(Tokens(filtersStr), alignDepth, pointcloud)
  {
    hide Stages, Pipeline, Tokens, Front, Back, AllAllowed;
    var tokens := Tokens(filtersStr);
    var k, filters, useDisparityFilter, useColorizerFilter, useDecimationFilter, useHdrFilter :=
        ScanTokens(tokens, pointcloud);
    if k < |tokens| {
      OffenceIsFirst(tokens, pointcloud, k);
      return if tokens[k].Unknown? then UnknownFilter(tokens[k].name) else AssertionFailed;
    }
    NoOffence(tokens, pointcloud);
    assert tokens[..k] == tokens;
    PipelineIs(tokens, alignDepth, pointcloud);
    filters := Assemble(filters, useDecimationFilter, useHdrFilter, useDisparityFilter, alignDepth,
                        useColorizerFilter, pointcloud);
    return Built(filters);
  }

  // The loop over the tokens; it ends at the first that is not allowed, or after all of them.
  method ScanTokens(tokens: seq<Token>, pointcloud: bool)
    returns (k: nat, filters: seq<Filter>, useDisparityFilter: bool, useColorizerFilter: bool,
             useDecimationFilter: bool, useHdrFilter: bool)
    ensures k <= |tokens| && filters == Stages(tokens[..k]) && AllAllowed(tokens[..k], pointcloud)
    ensures Flags(useDisparityFilter, useColorizerFilter, useDecimationFilter, useHdrFilter) == FlagsOf(tokens[..k])
    ensures k < |tokens| ==> !Allowed(tokens[k], pointcloud)
  {
    filters := [];
    useDisparityFilter, useColorizerFilter, useDecimationFilter, useHdrFilter := false, false, false, false;
    k := 0;
    assert tokens[..0] == [] && Stages(tokens[..0]) == [] && AllAllowed(tokens[..0], pointcloud);
    NoFlags();
    hide Stages, FlagsOf, AllAllowed;
    while k < |tokens|
      invariant k <= |tokens| && filters == Stages(tokens[..k])
      invariant Flags(useDisparityFilter, useColorizerFilter, useDecimationFilter, useHdrFilter) == FlagsOf(tokens[..k])
      invariant AllAllowed(tokens[..k], pointcloud)
    {
      OneMore(tokens, k, pointcloud);
      match tokens[k] {
        case Colorizer => useColorizerFilter := true;
        case Disparity => useDisparityFilter := true;
        case Spatial => filters := filters + [SpatialFilter];
        case Temporal => filters := filters + [TemporalFilter];
        case HoleFilling => filters := filters + [HoleFillingFilter];
        case Decimation => useDecimationFilter := true;
        case Pointcloud => if !pointcloud { return; }
        case HdrMerge => useHdrFilter := true;
        case Unknown(_) => return;
        case Nothing =>
      }
      assert filters == Stages(tokens[..k + 1]);
      k := k + 1;
    }
  }

  // The second half of the set-up: insertions at both ends of the list of stages.
  method Assemble(stages: seq<Filter>, decimation: bool, hdr: bool, disparity: bool, alignDepth: bool,
                  colorizer: bool, pointcloud: bool)
    returns (filters: seq<Filter>)
    ensures filters == Front(decimation, hdr, disparity) + (stages + Back(disparity, alignDepth, colorizer, pointcloud))
  {
    ghost var d, e := When(disparity, [DisparityEnd]), When(alignDepth, [AlignToColor]);
    ghost var f, g := When(colorizer, [ColorizerFilter]), When(pointcloud, [PointcloudFilter]);
    ghost var front := Front(decimation, hdr, disparity);
    filters := stages;
    if disparity {
      filters := [DisparityStart] + filters;
      filters := filters + [DisparityEnd];
    }
    assert filters == When(disparity, [DisparityStart]) + (stages + d);
    filters := Prefix(filters, hdr, decimation);
    FrontGroups(decimation, hdr, disparity, stages + d);
    hide Front, When;
    assert filters == front + (stages + d);
    filters := PushIf(filters, alignDepth, AlignToColor);
    Append(front, stages, d, e);
    filters := PushIf(filters, colorizer, ColorizerFilter);
    Append(front, stages, d + e, f);
    filters := PushIf(filters, pointcloud, PointcloudFilter);
    Append(front, stages, d + e + f, g);
  }

  method PushIf(filters: seq<Filter>, b: bool, f: Filter) returns (r: seq<Filter>)
    ensures r == filters + When(b, [f])
  {
    r := filters;
    if b {
      r := r + [f];
    }
  }

  lemma Append(front: seq<Filter>, stages: seq<Filter>, back: seq<Filter>, more: seq<Filter>)
    ensures (front + (stages + back)) + more == front + (stages + (back + more))
  {
    Regroup(front, stages + back, more);
    Regroup(stages, back, more);
  }

  lemma FrontGroups(decimation: bool, hdr: bool, disparity: bool, rest: seq<Filter>)
    ensures When(decimation, [DecimationFilter]) + When(hdr, [SequenceIdFilter, HdrMergeFilter]) +
              (When(disparity, [DisparityStart]) + rest) ==
            Front(decimation, hdr, disparity) + rest
  {
    var a, b := When(decimation, [DecimationFilter]), When(hdr, [SequenceIdFilter, HdrMergeFilter]);
    Regroup(a + b, When(disparity, [DisparityStart]), rest);
  }

  method Prefix(stages: seq<Filter>, hdr: bool, decimation: bool) returns (filters: seq<Filter>)
    ensures filters == When(decimation, [DecimationFilter]) + When(hdr, [SequenceIdFilter, HdrMergeFilter]) + stages
  {
    filters := stages;
    if hdr {
      filters := [HdrMergeFilter] + filters;
      filters := [SequenceIdFilter] + filters;
    }
    if decimation {
      filters := [DecimationFilter] + filters;
    }
  }

  // ---------- The point cloud switch ----------

  predicate OccursAt(s: string, part: string, i: nat)
  {
    i + |part| <= |s| && s[i..i + |part|] == part
  }

  ghost predicate Contains(s: string, part: string)
  {
    exists i: nat :: OccursAt(s, part, i)
  }

  // getParameters: the point cloud is on if asked for, or if its name occurs in the raw list.
  ghost function PointcloudSwitch(enabled: bool, filtersStr: string): bool
  {
    enabled || Contains(filtersStr, "pointcloud")
  }

  lemma {:induction false} PieceIsPart(s: string, k: nat) returns (i: nat)
    requires k < |Split(s)|
    ensures OccursAt(s, Split(s)[k], i)
    ensures k == 0 ==> i == 0
  {
    if s == "" {
      i := 0;
    } else if s[0] == ',' {
      if k == 0 {
        i := 0;
      } else {
        i := PieceIsPart(s[1..], k - 1);
        OccursLater(s, Split(s)[k], i);
        i := i + 1;
      }
    } else {
      i := PieceIsPart(s[1..], k);
      if k == 0 {
        assert s[0..1 + |Split(s[1..])[0]|] == [s[0]] + s[1..][0..|Split(s[1..])[0]|];
      } else {
        OccursLater(s, Split(s)[k], i);
        i := i + 1;
      }
    }
  }

  lemma OccursLater(s: string, part: string, i: nat)
    requires s != "" && OccursAt(s[1..], part, i)
    ensures OccursAt(s, part, i + 1)
  {
    assert s[i + 1..i + 1 + |part|] == s[1..][i..i + |part|];
  }

  lemma PartOfPart(s: string, i: nat, piece: string, j: nat, part: string)
    requires OccursAt(s, piece, i) && OccursAt(piece, part, j)
    ensures OccursAt(s, part, i + j)
  {
    forall x | 0 <= x < |part| ensures s[i + j + x] == part[x] {
      assert piece[j + x] == piece[j..j + |part|][x] && s[i + (j + x)] == s[i..i + |piece|][j + x];
    }
    assert s[i + j..i + j + |part|] == part;
  }

  /** A list that spells pointcloud without spaces inside never fails the assertion: the switch has
      seen the name in the raw list. */
  lemma UnspacedNeverAsserts(filtersStr: string, enabled: bool, alignDepth: bool)
    requires forall k :: 0 <= k < |Split(filtersStr)| && Tokens(filtersStr)[k] == Pointcloud ==>
               Contains(Split(filtersStr)[k], "pointcloud")
    ensures Expected(Tokens(filtersStr), alignDepth, PointcloudSwitch(enabled, filtersStr)) != AssertionFailed
  {
    var tokens, p := Tokens(filtersStr), PointcloudSwitch(enabled, filtersStr);
    var k := Offence(tokens, p);
    NoOffence(tokens, p);
    if k < |tokens| && tokens[k] == Pointcloud {
      var i := PieceIsPart(filtersStr, k);
      var j: nat :| OccursAt(Split(filtersStr)[k], "pointcloud", j);
      PartOfPart(filtersStr, i, Split(filtersStr)[k], j, "pointcloud");
    }
  }

  lemma {:induction false} NoComma(s: string)
    requires ',' !in s
    ensures Split(s) == [s]
  {
    if s != "" {
      NoComma(s[1..]);
      assert [s[0]] + s[1..] == s;
    }
  }

  // A token pointcloud is reached before any unknown one.
  ghost predicate ReachesPointcloud(tokens: seq<Token>)
  {
    exists k :: 0 <= k < |tokens| && tokens[k] == Pointcloud && forall j :: 0 <= j < k ==> !tokens[j].Unknown?
  }

  lemma {:induction false} OffenceBounds(tokens: seq<Token>, pointcloud: bool, k: nat)
    requires k < |tokens|
    ensures k < Offence(tokens, pointcloud) ==> Allowed(tokens[k], pointcloud)
    ensures !Allowed(tokens[k], pointcloud) ==> Offence(tokens, pointcloud) <= k
  {
    if k > 0 { OffenceBounds(tokens[1..], pointcloud, k - 1); }
  }

  /** The assertion fails if and only if the point cloud was not asked for, its name does not occur in
      the raw list, and yet the tokens, with their spaces removed, reach one that is that name. */
  lemma AssertionFailsIff(filtersStr: string, enabled: bool, alignDepth: bool)
    ensures Expected(Tokens(filtersStr), alignDepth, PointcloudSwitch(enabled, filtersStr)) == AssertionFailed <==>
            !enabled && !Contains(filtersStr, "pointcloud") && ReachesPointcloud(Tokens(filtersStr))
  {
    hide Tokens, Contains, Pipeline;
    var tokens, p := Tokens(filtersStr), PointcloudSwitch(enabled, filtersStr);
    var k := Offence(tokens, p);
    NoOffence(tokens, p);
    if k < |tokens| && tokens[k] == Pointcloud {
      forall j | 0 <= j < k ensures !tokens[j].Unknown? { OffenceBounds(tokens, p, j); }
    }
    if !p && ReachesPointcloud(tokens) {
      var n :| 0 <= n < |tokens| && tokens[n] == Pointcloud && forall j :: 0 <= j < n ==> !tokens[j].Unknown?;
      OffenceBounds(tokens, p, n);
    }
  }

  lemma {:induction false} RemoveSpacesConcat(a: string, b: string)
    ensures RemoveSpaces(a + b) == RemoveSpaces(a) + RemoveSpaces(b)
  {
    if a == "" {
      assert a + b == b;
    } else {
      assert (a + b)[1..] == a[1..] + b;
      RemoveSpacesConcat(a[1..], b);
    }
  }

  lemma {:induction false} NoSpaces(s: string)
    requires forall i :: 0 <= i < |s| ==> !IsSpace(s[i])
    ensures RemoveSpaces(s) == s
  {
    if s != "" {
      NoSpaces(s[1..]);
      assert [s[0]] + s[1..] == s;
    }
  }

  // A list of one such name.
  lemma OneName(spelling: string, alignDepth: bool)
    requires ',' !in spelling && RemoveSpaces(spelling) == "pointcloud" && !Contains(spelling, "pointcloud")
    ensures Expected(Tokens(spelling), alignDepth, PointcloudSwitch(false, spelling)) == AssertionFailed
  {
    NoComma(spelling);
    assert Tokens(spelling)[0] == Pointcloud;
    hide Contains, Tokens, RemoveSpaces;
    AssertionFailsIff(spelling, false, alignDepth);
  }

  const SPACED := "point cloud"

  lemma SpacedWithoutSpaces()
    ensures RemoveSpaces(SPACED) == "pointcloud"
  {
    hide RemoveSpaces;
    assert SPACED == "point" + (" " + "cloud");
    RemoveSpacesConcat("point", " " + "cloud");
    RemoveSpacesConcat(" ", "cloud");
    NoSpaces("point");
    NoSpaces("cloud");
    OneSpace();
  }

  lemma OneSpace()
    ensures RemoveSpaces(" ") == ""
  {
  }

  lemma SpacedIsNotTheName()
    ensures !Contains(SPACED, "pointcloud")
  {
    forall i: nat ensures !OccursAt(SPACED, "pointcloud", i) {
      if i + 10 <= |SPACED| {
        var part := SPACED[i..i + 10];
        assert part[0] == SPACED[i] && part[5] == SPACED[i + 5];
      }
    }
  }

  /** Such a list: the name spelled with a space inside. */
  lemma SpacedNameAsserts(alignDepth: bool)
    ensures Expected(Tokens(SPACED), alignDepth, PointcloudSwitch(false, SPACED)) == AssertionFailed
  {
    hide Contains, Tokens, RemoveSpaces, Expected, PointcloudSwitch;
    SpacedWithoutSpaces();
    SpacedIsNotTheName();
    OneName(SPACED, alignDepth);
  }
}
