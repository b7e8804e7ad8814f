/**
 Brief drafts against append-only, versioned catalogs: a draft's direction and audience always belong
 to its company, profile version and direction version, so the ownership checks of validation and
 snapshot compilation cannot fail.
 */
module Briefs {
  import opened Texts

  /** The version catalogs: profiles of a company, directions with the profile version they belong to,
      audiences with the direction version they belong to. */
  datatype Catalog = Catalog(
    profiles: set<(string, int)>,
    directions: map<(string, string, int), int>,
    audiences: map<(string, string, string, int), int>,
    archived: set<string>)

  datatype Ref = Ref(id: string, version: int)

  /** The thirteen content fields of a draft. Changing the hierarchy clears the first two. */
  datatype Field =
    | PageStructure | CategoryContext | PageType | Goal | TargetLanguage | Locale | PrimaryKeyword | Keywords | LsiTerms
    | CompetitorUrls | CurrentPageUrl | CurrentPageContext | OutputSheetTarget

  type Content = map<Field, string>

  datatype Draft = Draft(
    briefId: string, version: int, company: string, profileVersion: int,
    directionId: Option<string>, directionVersion: Option<int>, audienceId: Option<string>,
    audienceVersion: Option<int>,
    content: Content, createdBy: string, validated: bool)

  /** A command field is absent, or present with a value or an explicit null. */
  datatype Given<T> = Absent | Present(value: Option<T>)

  datatype Command = Command(
    briefId: string, actor: string, company: string, expectedVersion: Option<int>, expectedProfile: Option<int>,
    replacement: Option<string>,
    directionId: Given<string>, directionVersion: Given<int>, audienceId: Given<string>, audienceVersion: Given<int>,
    content: map<Field, Option<string>>)

  datatype Error = NotFound | VersionConflict | CompanyArchived | Invalid

  datatype Result<T> = Ok(value: T) | Err(error: Error)

  // ---- Reading the catalogs -----------------------------------------------------------------------------------------

  ghost predicate HasProfile(cat: Catalog, company: string) {
    exists v :: (company, v) in cat.profiles
  }

  /** `v` is the newest profile version of the company, if it has any. */
  ghost predicate IsNewest(cat: Catalog, company: string, v: Option<int>) {
    match v
    case None => !HasProfile(cat, company)
    case Some(n) => (company, n) in cat.profiles && forall u :: (company, u) in cat.profiles ==> u <= n
  }

  /** The company a command moves its draft to. */
  function Destination(d: Draft, c: Command): string {
    if c.replacement.Some? then c.replacement.value else d.company
  }

  // ---- update_brief -------------------------------------------------------------------------------------------------

  predicate Paired<A, B>(a: Given<A>, b: Given<B>) {
    && (a.Absent? <==> b.Absent?)
    && (a.Present? && b.Present? ==> (a.value.None? <==> b.value.None?))
  }

  /** Everything below the company is forgotten. */
  function Cleared(d: Draft): Draft {
    d.(directionId := None, directionVersion := None, audienceId := None, audienceVersion := None,
       content := d.content - {PageStructure, CategoryContext})
  }

  function ClearedAudience(d: Draft): Draft {
    d.(audienceId := None, audienceVersion := None, content := d.content - {PageStructure, CategoryContext})
  }

  function WithDirection(cat: Catalog, d: Draft, c: Command): Result<Draft> {
    if c.directionId.Absent? || c.directionVersion.Absent? then Ok(d)
    else if c.directionId.value.None? || c.directionVersion.value.None? then Ok(Cleared(d))
    else
      var id, v := c.directionId.value.value, c.directionVersion.value.value;
      if (d.company, id, v) !in cat.directions || cat.directions[(d.company, id, v)] != d.profileVersion
        then Err(NotFound)
      else
        var kept := if Some(id) != d.directionId || Some(v) != d.directionVersion then ClearedAudience(d) else d;
        Ok(kept.(directionId := Some(id), directionVersion := Some(v)))
  }

  function WithAudience(cat: Catalog, d: Draft, c: Command): Result<Draft> {
    if c.audienceId.Absent? || c.audienceVersion.Absent? then Ok(d)
    else if c.audienceId.value.None? || c.audienceVersion.value.None?
      then Ok(d.(audienceId := None, audienceVersion := None))
    else if d.directionId.None? || d.directionVersion.None? then Err(NotFound)
    else
      var id, v := c.audienceId.value.value, c.audienceVersion.value.value;
      var row := (d.company, d.directionId.value, id, v);
      if row !in cat.audiences || cat.audiences[row] != d.directionVersion.value then Err(NotFound)
      else Ok(d.(audienceId := Some(id), audienceVersion := Some(v)))
  }

  /** The supplied content fields; a change of company drops the hierarchy's own two. */
  function WithContent(d: Draft, c: Command, moved: bool): Draft {
    var set_ := map f | f in c.content && c.content[f].Some? && !(moved && f in {PageStructure, CategoryContext}) ::
      c.content[f].value;
    var unset := set f | f in c.content && c.content[f].None? && !(moved && f in {PageStructure, CategoryContext});
    d.(content := (d.content - unset) + set_)
  }

  /** The draft that `update_brief` computes from the one it read. `profile` is the newest profile
      version of the company it moves to. */
  function Updated(cat: Catalog, d: Draft, c: Command, profile: Option<int>): Result<Draft> {
    if (c.expectedVersion.Some? && c.expectedVersion.value != d.version)
      || (c.expectedProfile.Some? && c.expectedProfile.value != d.profileVersion)
    then Err(VersionConflict)
    else if !Paired(c.directionId, c.directionVersion) || !Paired(c.audienceId, c.audienceVersion) then Err(Invalid)
    else
      var company := Destination(d, c);
      var moved := company != d.company;
      if moved && company in cat.archived then Err(CompanyArchived)
      else if moved && profile.None? then Err(NotFound)
      else
        var base := if moved then Ok(Cleared(d).(company := company, profileVersion := profile.value))
          else WithDirection(cat, d, c);
        if base.Err? then base
        else
          var hierarchy := if moved then base else WithAudience(cat, base.value, c);
          if hierarchy.Err? then hierarchy
          else Ok(WithContent(hierarchy.value, c, moved).(validated := false, version := d.version + 1))
  }

  /** `validate_brief`; `complete` stands for the content fields passing the brief's own rules. */
  function Validated(cat: Catalog, d: Draft, expectedVersion: Option<int>, expectedProfile: Option<int>,
                     complete: bool): Result<Draft>
  {
    if (expectedVersion.Some? && expectedVersion.value != d.version)
      || (expectedProfile.Some? && expectedProfile.value != d.profileVersion)
    then Err(VersionConflict)
    else if d.directionId.None? || d.directionVersion.None? || d.audienceId.None? || d.audienceVersion.None?
      then Err(Invalid)
    else if !Owned(cat, d) then Err(NotFound)
    else if !complete then Err(Invalid)
    else Ok(d.(validated := true, version := d.version + 1))
  }

  /** The lookups and comparisons that validation and snapshot compilation share. */
  predicate Owned(cat: Catalog, d: Draft)
    requires d.directionId.Some? && d.directionVersion.Some? && d.audienceId.Some? && d.audienceVersion.Some?
  {
    var direction := (d.company, d.directionId.value, d.directionVersion.value);
    var audience := (d.company, d.directionId.value, d.audienceId.value, d.audienceVersion.value);
    && (d.company, d.profileVersion) in cat.profiles
    && direction in cat.directions && cat.directions[direction] == d.profileVersion
    && audience in cat.audiences && cat.audiences[audience] == d.directionVersion.value
  }

  // ---- The service --------------------------------------------------------------------------------------------------

  class BriefService {
    var catalog: Catalog
    var drafts: map<string, Draft>

    constructor ()
      ensures catalog == Catalog({}, map[], map[], {}) && drafts == map[]
    {
      catalog := Catalog({}, map[], map[], {});
      drafts := map[];
    }

    ghost predicate Valid()
      reads this
    {
      forall id :: id in drafts ==> drafts[id].briefId == id && DraftOk(catalog, drafts[id])
    }

    /** New catalog versions; a version that exists is never replaced. */
    method AddProfile(company: string, version: int)
      requires Valid()
      modifies this`catalog
      ensures Valid() && catalog == old(catalog).(profiles := old(catalog).profiles + {(company, version)})
    {
      ghost var before := catalog;
      catalog := catalog.(profiles := catalog.profiles + {(company, version)});
      GrowthKeepsAll(before, catalog, drafts);
    }

    method AddDirection(company: string, id: string, version: int, profile: int) returns (ok: bool)
      requires Valid()
      modifies this`catalog
      ensures Valid() && ok == ((company, id, version) !in old(catalog).directions)
      ensures catalog == if ok
        then old(catalog).(directions := old(catalog).directions[(company, id, version) := profile]) else old(catalog)
    {
      if (company, id, version) in catalog.directions {
        return false;
      }
      ghost var before := catalog;
      catalog := catalog.(directions := catalog.directions[(company, id, version) := profile]);
      GrowthKeepsAll(before, catalog, drafts);
      return true;
    }

    method AddAudience(company: string, direction: string, id: string, version: int, directionVersion: int)
      returns (ok: bool)
      requires Valid()
      modifies this`catalog
      ensures Valid() && ok == ((company, direction, id, version) !in old(catalog).audiences)
      ensures catalog ==
        if ok then old(catalog).(audiences := old(catalog).audiences[(company, direction, id,
                                                                      version) := directionVersion]) else old(catalog)
    {
      if (company, direction, id, version) in catalog.audiences {
        return false;
      }
      ghost var before := catalog;
      catalog := catalog.(audiences := catalog.audiences[(company, direction, id, version) := directionVersion]);
      GrowthKeepsAll(before, catalog, drafts);
      return true;
    }

    /** `get_current_profile`: the newest version. */
    method CurrentProfile(company: string) returns (v: Option<int>)
      ensures IsNewest(catalog, company, v)
    {
      v := None;
      var rest := catalog.profiles;
      while rest != {}
        invariant rest <= catalog.profiles
        invariant v.Some? ==> (company, v.value) in catalog.profiles
        invariant forall u :: (company, u) in catalog.profiles && (company, u) !in rest ==> v.Some? && u <= v.value
        decreases |rest|
      {
        var p :| p in rest;
        if p.0 == company && (v.None? || v.value < p.1) {
          v := Some(p.1);
        }
        rest := rest - {p};
      }
    }

    method StartBrief(id: string, actor: string, company: string) returns (r: Result<Draft>)
      requires Valid()
      modifies this`drafts
      ensures Valid()
      ensures r.Ok? <==> company !in catalog.archived && HasProfile(catalog, company) && id !in old(drafts)
      ensures r.Ok? ==>
        && IsNewest(catalog, company, Some(r.value.profileVersion))
        && r.value == Draft(id, 1, company, r.value.profileVersion, None, None, None, None, map[], actor, false)
        && drafts == old(drafts)[id := r.value]
      ensures r.Err? ==> drafts == old(drafts)
    {
      if company in catalog.archived {
        return Err(CompanyArchived);
      }
      var profile := CurrentProfile(company);
      if profile.None? {
        return Err(NotFound);
      }
      if id in drafts {
        return Err(Invalid);
      }
      var d := Draft(id, 1, company, profile.value, None, None, None, None, map[], actor, false);
      drafts := drafts[id := d];
      return Ok(d);
    }

    /** `update_draft`: store the new draft only if the stored one is still the one that was read. */
    method Commit(read: Draft, next: Draft) returns (r: Result<Draft>)
      requires Valid() && next.briefId == read.briefId && next.createdBy == read.createdBy
      requires DraftOk(catalog, read) ==> DraftOk(catalog, next)
      modifies this`drafts
      ensures Valid()
      ensures r.Ok? <==> read.briefId in old(drafts) && old(drafts)[read.briefId] == read
      ensures drafts == if r.Ok? then old(drafts)[read.briefId := next] else old(drafts)
      ensures r == Ok(next) || r == Err(VersionConflict)
    {
      if read.briefId !in drafts || drafts[read.briefId] != read {
        return Err(VersionConflict);
      }
      drafts := drafts[read.briefId := next];
      return Ok(next);
    }

    /** `update_brief` from the draft that was read: the working copy is edited step by step, and
        the result is committed only over an unchanged draft. */
    method UpdateBrief(read: Draft, c: Command) returns (r: Result<Draft>, ghost profile: Option<int>)
      requires Valid() && read.briefId == c.briefId && read.createdBy == c.actor && read.company == c.company
      modifies this`drafts
      ensures Valid() && IsNewest(catalog, Destination(read, c), profile)
      ensures var spec := Updated(catalog, read, c, profile);
        if spec.Err? then r == spec && drafts == old(drafts)
        else if read.briefId in old(drafts) && old(drafts)[read.briefId] == read
        then r == spec && drafts == old(drafts)[read.briefId := spec.value] && spec.value.version == read.version + 1
        else r == Err(VersionConflict) && drafts == old(drafts)
    {
      var company := Destination(read, c);
      var newest := CurrentProfile(company);
      profile := newest;
      if c.expectedVersion.Some? && c.expectedVersion.value != read.version {
        return Err(VersionConflict), profile;
      }
      if c.expectedProfile.Some? && c.expectedProfile.value != read.profileVersion {
        return Err(VersionConflict), profile;
      }
      if !Paired(c.directionId, c.directionVersion) || !Paired(c.audienceId, c.audienceVersion) {
        return Err(Invalid), profile;
      }
      var values, moved := read, company != read.company;
      if moved {
        if company in catalog.archived {
          return Err(CompanyArchived), profile;
        }
        if newest.None? {
          return Err(NotFound), profile;
        }
        values := Cleared(values);
        values := values.(company := company, profileVersion := newest.value);
      } else {
        var direction := WithDirection(catalog, values, c);
        if direction.Err? {
          return direction, profile;
        }
        values := direction.value;
        var audience := WithAudience(catalog, values, c);
        if audience.Err? {
          return audience, profile;
        }
        values := audience.value;
      }
      values := WithContent(values, c, moved);
      values := values.(validated := false);
      values := values.(version := read.version + 1);
      UpdateKeepsHierarchy(catalog, read, c, profile);
      r := Commit(read, values);
    }

    /** `validate_brief`: on a stored draft the only failures are a stale expectation, missing
        hierarchy, or incomplete content; its ownership check cannot fail. */
    method ValidateBrief(id: string, expectedVersion: Option<int>, expectedProfile: Option<int>, complete: bool)
      returns (r: Result<Draft>)
      requires Valid() && id in drafts
      modifies this`drafts
      ensures Valid()
      ensures r == Validated(catalog, old(drafts)[id], expectedVersion, expectedProfile, complete)
      ensures drafts == if r.Ok? then old(drafts)[id := r.value] else old(drafts)
      ensures r != Err(NotFound)
    {
      var d := drafts[id];
      r := Validated(catalog, d, expectedVersion, expectedProfile, complete);
      CompleteIsOwned(catalog, d);
      if r.Ok? {
        var done := Commit(d, r.value);
        assert done == r;
      }
    }
  }

  // ---- The hierarchy ------------------------------------------------------------------------------------------------

  /** Every version a draft names exists and belongs to the version above it. */
  ghost predicate DraftOk(cat: Catalog, d: Draft) {
    && (d.company, d.profileVersion) in cat.profiles
    && (d.directionId.Some? <==> d.directionVersion.Some?)
    && (d.audienceId.Some? <==> d.audienceVersion.Some?)
    && (d.audienceId.Some? ==> d.directionId.Some?)
    && (d.directionId.Some? ==>
          var row := (d.company, d.directionId.value, d.directionVersion.value);
          row in cat.directions && cat.directions[row] == d.profileVersion)
    && (d.audienceId.Some? ==>
          var row := (d.company, d.directionId.value, d.audienceId.value, d.audienceVersion.value);
          row in cat.audiences && cat.audiences[row] == d.directionVersion.value)
    && (d.validated ==> d.audienceId.Some?)
  }

  ghost predicate Grows(a: Catalog, b: Catalog) {
    && a.profiles <= b.profiles
    && (forall k :: k in a.directions ==> k in b.directions && b.directions[k] == a.directions[k])
    && (forall k :: k in a.audiences ==> k in b.audiences && b.audiences[k] == a.audiences[k])
  }

  /** Appending versions, or archiving companies, breaks no draft. */
  lemma GrowthKeeps(a: Catalog, b: Catalog, d: Draft)
    requires Grows(a, b) && DraftOk(a, d)
    ensures DraftOk(b, d)
  {
  }

  lemma GrowthKeepsAll(a: Catalog, b: Catalog, drafts: map<string, Draft>)
    requires Grows(a, b) && forall id :: id in drafts ==> DraftOk(a, drafts[id])
    ensures forall id :: id in drafts ==> DraftOk(b, drafts[id])
  {
    forall id | id in drafts ensures DraftOk(b, drafts[id]) {
      GrowthKeeps(a, b, drafts[id]);
    }
  }

  /** Whatever an update asks for, the draft it produces is consistent again, one version later. */
  lemma UpdateKeepsHierarchy(cat: Catalog, d: Draft, c: Command, profile: Option<int>)
    requires Updated(cat, d, c, profile).Ok? && IsNewest(cat, Destination(d, c), profile)
    ensures var n := Updated(cat, d, c, profile).value;
      && (DraftOk(cat, d) ==> DraftOk(cat, n))
      && n.version == d.version + 1 && n.briefId == d.briefId && n.createdBy == d.createdBy && !n.validated
  {
    hide Updated, ContentAfter, HalfGiven;
    UpdateDecided(cat, d, c, profile);
  }

  // ---- What an update stores ----------------------------------------------------------------------------------------

  /** The command names a direction: an identifier with a version. */
  predicate NamesDirection(c: Command) {
    c.directionId.Present? && c.directionVersion.Present? && c.directionId.value.Some? && c.directionVersion.value.Some?
  }

  predicate NamesAudience(c: Command) {
    c.audienceId.Present? && c.audienceVersion.Present? && c.audienceId.value.Some? && c.audienceVersion.value.Some?
  }

  /** The direction after the command, for a draft that stays with its company. */
  function DirectionAfter(d: Draft, c: Command): (Option<string>, Option<int>) {
    if c.directionId.Absent? then (d.directionId, d.directionVersion)
    else if NamesDirection(c) then (c.directionId.value, c.directionVersion.value) else (None, None)
  }

  /** The levels below the company, or below the direction, are new ones. */
  predicate HierarchyChanges(d: Draft, c: Command) {
    || Destination(d, c) != d.company
    || (c.directionId.Present? && (!NamesDirection(c) || DirectionAfter(d, c) != (d.directionId, d.directionVersion)))
  }

  /** A supplied field is stored, or removed by an explicit null; every other field is kept, but for the
      two that belong to the hierarchy when the hierarchy changes. A draft that moves takes no new
      value for these two. */
  ghost predicate ContentAfter(d: Draft, c: Command, n: Content) {
    var own := {PageStructure, CategoryContext};
    forall f: Field ::
      if f in c.content && !(Destination(d, c) != d.company && f in own) then
        (f in n <==> c.content[f].Some?) && (f in n ==> n[f] == c.content[f].value)
      else if HierarchyChanges(d, c) && f in own then f !in n
      else (f in n <==> f in d.content) && (f in n ==> n[f] == d.content[f])
  }

  /** Every column of the draft that an update computes. */
  ghost predicate ColumnsAfter(d: Draft, c: Command, profile: Option<int>, n: Draft) {
    var moved := Destination(d, c) != d.company;
    && n.briefId == d.briefId && n.createdBy == d.createdBy && n.version == d.version + 1 && !n.validated
    && n.company == Destination(d, c) && Some(n.profileVersion) == (if moved then profile else Some(d.profileVersion))
    && (n.directionId, n.directionVersion) == (if moved then (None, None) else DirectionAfter(d, c))
    && n.audienceId == (if moved then None else if NamesAudience(c) then c.audienceId.value
                        else if c.audienceId.Present? || HierarchyChanges(d, c) then None else d.audienceId)
    && n.audienceVersion == (if moved then None else if NamesAudience(c) then c.audienceVersion.value
                             else if c.audienceId.Present? || HierarchyChanges(d, c) then None
                             else d.audienceVersion)
    && ContentAfter(d, c, n.content)
  }

  /** An identifier comes without its version, or one of them is null alone. */
  predicate HalfGiven(c: Command) {
    || c.directionId.Present? != c.directionVersion.Present? || c.audienceId.Present? != c.audienceVersion.Present?
    || (c.directionId.Present? && c.directionVersion.Present?
        && c.directionId.value.Some? != c.directionVersion.value.Some?)
    || (c.audienceId.Present? && c.audienceVersion.Present?
        && c.audienceId.value.Some? != c.audienceVersion.value.Some?)
  }

  /** The direction, or the audience, that is named does not exist under the level above it. */
  predicate Missing(cat: Catalog, d: Draft, c: Command) {
    var (id, version) := DirectionAfter(d, c);
    || (NamesDirection(c) && NoDirection(cat, d, id.value, version.value))
    || (NamesAudience(c) && NoAudience(cat, d.(directionId := id, directionVersion := version),
                                       c.audienceId.value.value, c.audienceVersion.value.value))
  }

  /** No direction of the company has this identifier and version under this profile. */
  predicate NoDirection(cat: Catalog, d: Draft, id: string, version: int) {
    var row := (d.company, id, version);
    row !in cat.directions || cat.directions[row] != d.profileVersion
  }

  lemma DirectionDecided(cat: Catalog, d: Draft, c: Command)
    requires !HalfGiven(c)
    ensures var r := WithDirection(cat, d, c);
      var changes := c.directionId.Present?
                     && (!NamesDirection(c) || DirectionAfter(d, c) != (d.directionId, d.directionVersion));
      if NamesDirection(c) && NoDirection(cat, d, c.directionId.value.value, c.directionVersion.value.value)
      then r == Err(NotFound)
      else
        var (id, version) := DirectionAfter(d, c);
        r == Ok(d.(directionId := id, directionVersion := version,
                   audienceId := if changes then None else d.audienceId,
                   audienceVersion := if changes then None else d.audienceVersion,
                   content := if changes then d.content - {PageStructure, CategoryContext} else d.content))
  {
  }

  lemma AudienceDecided(cat: Catalog, d: Draft, c: Command)
    requires !HalfGiven(c)
    ensures var r := WithAudience(cat, d, c);
      if NamesAudience(c) && NoAudience(cat, d, c.audienceId.value.value, c.audienceVersion.value.value)
      then r == Err(NotFound)
      else if c.audienceId.Absent? then r == Ok(d)
      else if NamesAudience(c) then
        r == Ok(d.(audienceId := c.audienceId.value, audienceVersion := c.audienceVersion.value))
      else r == Ok(d.(audienceId := None, audienceVersion := None))
  {
  }

  /** No audience of this identifier and version exists under the direction of the draft. */
  predicate NoAudience(cat: Catalog, d: Draft, id: string, version: int) {
    d.directionId.None? || d.directionVersion.None?
    || var row := (d.company, d.directionId.value, id, version);
       row !in cat.audiences || cat.audiences[row] != d.directionVersion.value
  }

  lemma ContentDecided(d: Draft, c: Command, moved: bool)
    ensures var n := WithContent(d, c, moved);
      && n == d.(content := n.content)
      && forall f: Field ::
           if f in c.content && !(moved && f in {PageStructure, CategoryContext}) then
             (f in n.content <==> c.content[f].Some?) && (f in n.content ==> n.content[f] == c.content[f].value)
           else (f in n.content <==> f in d.content) && (f in n.content ==> n.content[f] == d.content[f])
  {
  }

  lemma WholeIsPaired(c: Command)
    ensures HalfGiven(c) <==> !Paired(c.directionId, c.directionVersion) || !Paired(c.audienceId, c.audienceVersion)
  {
  }

  /** What an update refuses, in the order of its checks, and what it stores otherwise. */
  lemma UpdateDecided(cat: Catalog, d: Draft, c: Command, profile: Option<int>)
    ensures var r, moved := Updated(cat, d, c, profile), Destination(d, c) != d.company;
      if || (c.expectedVersion.Some? && c.expectedVersion.value != d.version)
         || (c.expectedProfile.Some? && c.expectedProfile.value != d.profileVersion)
      then r == Err(VersionConflict)
      else if HalfGiven(c) then r == Err(Invalid)
      else if moved && Destination(d, c) in cat.archived then r == Err(CompanyArchived)
      else if (moved && profile.None?) || (!moved && Missing(cat, d, c)) then r == Err(NotFound)
      else r.Ok? && ColumnsAfter(d, c, profile, r.value)
  {
    hide WithDirection, WithAudience, WithContent, HalfGiven, Paired, Missing, ContentAfter;
    WholeIsPaired(c);
    if !HalfGiven(c) {
      if Destination(d, c) != d.company {
        if profile.Some? {
          MoveStored(d, c, profile.value);
        }
      } else {
        StayDecided(cat, d, c, profile);
      }
    }
  }

  lemma MoveStored(d: Draft, c: Command, profile: int)
    requires Destination(d, c) != d.company
    ensures var base := Cleared(d).(company := Destination(d, c), profileVersion := profile);
      ColumnsAfter(d, c, Some(profile), WithContent(base, c, true).(validated := false, version := d.version + 1))
  {
    hide WithContent;
    ContentDecided(Cleared(d).(company := Destination(d, c), profileVersion := profile), c, true);
  }

  /** The hierarchy of a draft that stays with its company. */
  lemma StayHierarchy(cat: Catalog, d: Draft, c: Command)
    requires !HalfGiven(c) && Destination(d, c) == d.company
    ensures var a := WithDirection(cat, d, c);
      if Missing(cat, d, c) then a == Err(NotFound) || (a.Ok? && WithAudience(cat, a.value, c) == Err(NotFound))
      else
        && a.Ok? && WithAudience(cat, a.value, c).Ok?
        && var (id, version) := DirectionAfter(d, c);
           WithAudience(cat, a.value, c).value
           == d.(directionId := id, directionVersion := version,
                 audienceId := if NamesAudience(c) then c.audienceId.value
                   else if c.audienceId.Present? || HierarchyChanges(d, c) then None else d.audienceId,
                 audienceVersion := if NamesAudience(c) then c.audienceVersion.value
                   else if c.audienceId.Present? || HierarchyChanges(d, c) then None else d.audienceVersion,
                 content := if HierarchyChanges(d, c) then d.content - {PageStructure, CategoryContext} else d.content)
  {
    hide WithDirection, WithAudience, HalfGiven, NoDirection;
    DirectionDecided(cat, d, c);
    if WithDirection(cat, d, c).Ok? {
      AudienceDecided(cat, WithDirection(cat, d, c).value, c);
    }
  }

  lemma StayDecided(cat: Catalog, d: Draft, c: Command, profile: Option<int>)
    requires !HalfGiven(c) && Destination(d, c) == d.company
    ensures var a := WithDirection(cat, d, c);
      if Missing(cat, d, c) then a == Err(NotFound) || (a.Ok? && WithAudience(cat, a.value, c) == Err(NotFound))
      else
        && a.Ok? && WithAudience(cat, a.value, c).Ok?
        && var n := WithContent(WithAudience(cat, a.value, c).value, c, false);
           ColumnsAfter(d, c, profile, n.(validated := false, version := d.version + 1))
  {
    hide WithDirection, WithAudience, WithContent, HalfGiven, Missing, NamesAudience, HierarchyChanges, DirectionAfter;
    StayHierarchy(cat, d, c);
    if !Missing(cat, d, c) {
      ContentDecided(WithAudience(cat, WithDirection(cat, d, c).value, c).value, c, false);
    }
  }

  /** What validation refuses, in the order of its checks, and what it stores otherwise: the same draft,
      validated, one version later. */
  lemma ValidateDecided(cat: Catalog, d: Draft, version: Option<int>, profile: Option<int>, complete: bool)
    requires DraftOk(cat, d)
    ensures Validated(cat, d, version, profile, complete) ==
      if version !in {None, Some(d.version)} || profile !in {None, Some(d.profileVersion)} then Err(VersionConflict)
      else if d.directionId.None? || d.audienceId.None? || !complete then Err(Invalid)
      else Ok(Draft(d.briefId, d.version + 1, d.company, d.profileVersion, d.directionId, d.directionVersion,
                    d.audienceId, d.audienceVersion, d.content, d.createdBy, true))
  {
  }

  /** A consistent draft that names a direction and an audience passes the ownership checks. */
  lemma CompleteIsOwned(cat: Catalog, d: Draft)
    requires DraftOk(cat, d)
    ensures d.directionId.Some? && d.directionVersion.Some? && d.audienceId.Some? && d.audienceVersion.Some? ==>
      Owned(cat, d)
  {
  }

  /** Snapshot compilation reads only validated drafts, so its ownership check cannot fail either,
      even after the catalogs have grown. */
  lemma SnapshotOwned(a: Catalog, b: Catalog, d: Draft)
    requires DraftOk(a, d) && d.validated && Grows(a, b)
    ensures
      && d.directionId.Some? && d.directionVersion.Some? && d.audienceId.Some? && d.audienceVersion.Some? && Owned(b, d)
  {
    GrowthKeeps(a, b, d);
  }
}
