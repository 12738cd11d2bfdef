/**
 * The profile-template helpers of the identity-completion endpoint: which
 * form fields a user's persona makes visible, which required fields and
 * mandatory consents are still missing, and the full form a new user is
 * shown.
 */
module ProfileTemplate {
  import opened JsText

  /**
   * One field of the profile form. `name` stands for the field's other
   * properties, which every filter carries along unchanged.
   */
  datatype Field = Field(
    name: string,
    personaIds: Option<seq<string>>,  // None: null or undefined
    isRequired: JsValue,
    value: JsValue,
    isAddressField: JsValue)

  /** A group of fields; `attributes` are the properties `{ ...group }` copies. */
  datatype FieldGroup = FieldGroup(attributes: map<string, JsValue>, fields: Option<seq<Field>>)

  /** One PDPA consent item. */
  datatype PdpaItem = PdpaItem(name: string, isMandatory: JsValue, isAccepted: JsValue)

  /** The template's `persona` section. */
  datatype PersonaSection = PersonaSection(
    selectedPersonaId: Option<string>,
    merchantConfig: JsValue,
    personaGroups: JsValue)

  /**
   * What `bff_get_user_profile_template` returns. A section that is absent,
   * null or (for the lists) not an array is None.
   */
  datatype Template = Template(
    persona: Option<PersonaSection>,
    pdpa: Option<seq<PdpaItem>>,
    defaultFieldsConfig: Option<seq<FieldGroup>>,
    customFieldsConfig: Option<seq<FieldGroup>>,
    selectedSection: JsValue)

  /** `{}`: the template used when the procedure returned none. */
  const EmptyTemplate := Template(None, None, None, None, Undefined)

  /** `profileTemplate || {}` */
  function TemplateOrEmpty(t: Option<Template>): Template
  {
    if t.Some? then t.value else EmptyTemplate
  }

  /** `persona_groups` in the missing-data view: passed through, or replaced by []. */
  datatype PersonaGroups = Given(groups: JsValue) | EmptyList

  datatype MissingPersona = MissingPersona(
    selectedPersonaId: Option<string>,
    merchantConfig: JsValue,
    personaGroups: PersonaGroups)

  datatype MissingData = MissingData(
    persona: Option<MissingPersona>,
    pdpa: seq<PdpaItem>,
    defaultFieldsConfig: seq<FieldGroup>,
    customFieldsConfig: seq<FieldGroup>)

  datatype MissingResult = MissingResult(
    missingData: MissingData,
    hasMissingConsent: bool,
    hasMissingProfile: bool,
    hasMissingAddress: bool)

  datatype FullFormData = FullFormData(
    persona: Option<PersonaSection>,
    pdpa: seq<PdpaItem>,
    defaultFieldsConfig: seq<FieldGroup>,
    customFieldsConfig: seq<FieldGroup>,
    selectedSection: JsValue)

  /** A field with null, undefined or empty `persona_ids` is shown to everyone. */
  predicate Unrestricted(f: Field) {
    f.personaIds.None? || f.personaIds.value == []
  }

  /** The filter callback of `filterFieldsByPersona`. */
  predicate Visible(f: Field, userPersonaId: Option<string>) {
    if Unrestricted(f) then true
    else if !Truthy(userPersonaId) then false
    else userPersonaId.value in f.personaIds.value
  }

  /** `filterFieldsByPersona(fields, userPersonaId)` */
  function FilterFieldsByPersona(fields: seq<Field>, userPersonaId: Option<string>): seq<Field>
  {
    Filter(fields, f => Visible(f, userPersonaId))
  }

  /**
   * The persona filter is an order-preserving selection that keeps every
   * unrestricted field, and a restricted field exactly when the user has a
   * persona that the field lists; a user without a persona sees only
   * unrestricted fields.
   */
  lemma PersonaFilterSelects(fields: seq<Field>, userPersonaId: Option<string>)
    ensures var r := FilterFieldsByPersona(fields, userPersonaId);
      && IsSubsequence(r, fields)
      && (forall f :: f in r <==>
            f in fields && (Unrestricted(f) || (Truthy(userPersonaId) && userPersonaId.value in f.personaIds.value)))
      && (!Truthy(userPersonaId) ==> forall f :: f in r ==> Unrestricted(f))
  {
    FilterIsSubsequence(fields, f => Visible(f, userPersonaId));
    FilterMembers(fields, f => Visible(f, userPersonaId));
  }

  /** `group.fields || []` */
  function FieldsOf(g: FieldGroup): seq<Field>
  {
    if g.fields.Some? then g.fields.value else []
  }

  /** `field.is_required === true && (field.value === null || field.value === '' || field.value === undefined)` */
  predicate IsMissingField(f: Field) {
    IsTrue(f.isRequired) && (f.value == Null || f.value == Str("") || f.value == Undefined)
  }

  /** `item.is_mandatory === true && item.isAccepted === false` */
  predicate IsMissingConsent(item: PdpaItem) {
    IsTrue(item.isMandatory) && IsFalse(item.isAccepted)
  }

  /** The persona-relevant fields of a group that are required and empty, in order. */
  function MissingFields(g: FieldGroup, userPersonaId: Option<string>): seq<Field>
  {
    Filter(FilterFieldsByPersona(FieldsOf(g), userPersonaId), IsMissingField)
  }

  /** `{ ...group, fields: missingFields }` */
  function WithMissingFields(g: FieldGroup, userPersonaId: Option<string>): FieldGroup
  {
    g.(fields := Some(MissingFields(g, userPersonaId)))
  }

  /** The groups the loop over a config pushes: those with at least one missing field. */
  function MissingGroups(groups: seq<FieldGroup>, userPersonaId: Option<string>): seq<FieldGroup>
  {
    if groups == [] then []
    else
      var init, last := groups[..|groups| - 1], groups[|groups| - 1];
      if |MissingFields(last, userPersonaId)| > 0
      then MissingGroups(init, userPersonaId) + [WithMissingFields(last, userPersonaId)]
      else MissingGroups(init, userPersonaId)
  }

  /** Some missing persona-relevant field of one of `groups` is an address field. */
  predicate AddressMissing(groups: seq<FieldGroup>, userPersonaId: Option<string>) {
    exists i, j :: 0 <= i < |groups| && 0 <= j < |MissingFields(groups[i], userPersonaId)|
      && IsTrue(MissingFields(groups[i], userPersonaId)[j].isAddressField)
  }

  /** The `persona` entry of the missing-data view. */
  function MissingPersonaOf(p: PersonaSection): MissingPersona
  {
    MissingPersona(
      OrNull(p.selectedPersonaId),
      OrNullValue(p.merchantConfig),
      if !Truthy(p.selectedPersonaId) then Given(p.personaGroups) else EmptyList)
  }

  function ListOrEmpty<T>(xs: Option<seq<T>>): seq<T>
  {
    if xs.Some? then xs.value else []
  }

  /** What `filterToMissingOnly(template, userPersonaId)` returns. */
  function MissingOnly(t: Template, userPersonaId: Option<string>): MissingResult
  {
    var persona := if t.persona.Some? then Some(MissingPersonaOf(t.persona.value)) else None;
    var pdpa := Filter(ListOrEmpty(t.pdpa), IsMissingConsent);
    var defaults := MissingGroups(ListOrEmpty(t.defaultFieldsConfig), userPersonaId);
    var customs := MissingGroups(ListOrEmpty(t.customFieldsConfig), userPersonaId);
    MissingResult(
      MissingData(persona, pdpa, defaults, customs),
      |pdpa| > 0,
      |defaults| > 0 || |customs| > 0,
      AddressMissing(ListOrEmpty(t.defaultFieldsConfig), userPersonaId))
  }

  /**
   * `filterToMissingOnly`: the loops over the default and custom groups, the
   * first of them raising the address flag from inside its field filter.
   */
  method FilterToMissingOnly(t: Template, userPersonaId: Option<string>) returns (r: MissingResult)
    ensures r == MissingOnly(t, userPersonaId)
  {
    var persona := if t.persona.Some? then Some(MissingPersonaOf(t.persona.value)) else None;
    var pdpa: seq<PdpaItem> := [];
    var defaults: seq<FieldGroup> := [];
    var customs: seq<FieldGroup> := [];
    var hasMissingAddress := false;
    if t.pdpa.Some? {
      pdpa := Filter(t.pdpa.value, IsMissingConsent);
    }
    if t.defaultFieldsConfig.Some? {
      defaults, hasMissingAddress := CollectDefaultGroups(t.defaultFieldsConfig.value, userPersonaId);
    } else {
      NoGroupsMissing(userPersonaId);
    }
    if t.customFieldsConfig.Some? {
      customs := CollectCustomGroups(t.customFieldsConfig.value, userPersonaId);
    }
    r := MissingResult(MissingData(persona, pdpa, defaults, customs),
                       |pdpa| > 0, |defaults| > 0 || |customs| > 0, hasMissingAddress);
    MissingOnlyFromParts(t, userPersonaId, r);
  }

  /** An absent config emits no group and raises no flag. */
  lemma NoGroupsMissing(userPersonaId: Option<string>)
    ensures MissingGroups([], userPersonaId) == [] && !AddressMissing([], userPersonaId)
  {
  }

  /** The result assembled from the four parts is `MissingOnly`. */
  lemma MissingOnlyFromParts(t: Template, userPersonaId: Option<string>, r: MissingResult)
    requires r.missingData.persona == (if t.persona.Some? then Some(MissingPersonaOf(t.persona.value)) else None)
    requires r.missingData.pdpa == Filter(ListOrEmpty(t.pdpa), IsMissingConsent)
    requires r.missingData.defaultFieldsConfig == MissingGroups(ListOrEmpty(t.defaultFieldsConfig), userPersonaId)
    requires r.missingData.customFieldsConfig == MissingGroups(ListOrEmpty(t.customFieldsConfig), userPersonaId)
    requires r.hasMissingConsent == (|r.missingData.pdpa| > 0)
    requires r.hasMissingProfile == (|r.missingData.defaultFieldsConfig| > 0 || |r.missingData.customFieldsConfig| > 0)
    requires r.hasMissingAddress == AddressMissing(ListOrEmpty(t.defaultFieldsConfig), userPersonaId)
    ensures r == MissingOnly(t, userPersonaId)
  {
  }

  /** The loop over `default_fields_config`, which also raises the address flag. */
  method CollectDefaultGroups(groups: seq<FieldGroup>, userPersonaId: Option<string>)
    returns (defaults: seq<FieldGroup>, hasMissingAddress: bool)
    ensures defaults == MissingGroups(groups, userPersonaId)
    ensures hasMissingAddress == AddressMissing(groups, userPersonaId)
  {
    defaults, hasMissingAddress := [], false;
    var i := 0;
    while i < |groups|
      invariant 0 <= i <= |groups|
      invariant defaults == MissingGroups(groups[..i], userPersonaId)
      invariant hasMissingAddress == AddressMissing(groups[..i], userPersonaId)
    {
      var group := groups[i];
      var relevant := FilterFieldsByPersona(FieldsOf(group), userPersonaId);
      var missing, foundAddress := CollectMissingFields(relevant);
      DefaultGroupStep(groups, i, userPersonaId, defaults, hasMissingAddress, missing, foundAddress);
      if foundAddress {
        hasMissingAddress := true;
      }
      if |missing| > 0 {
        defaults := defaults + [group.(fields := Some(missing))];
      }
      i := i + 1;
    }
    assert groups[..i] == groups;
  }

  /** One iteration of the default-group loop extends both the emitted groups and the address flag correctly. */
  lemma DefaultGroupStep(groups: seq<FieldGroup>, i: nat, userPersonaId: Option<string>,
                         defaults: seq<FieldGroup>, flag: bool, missing: seq<Field>, found: bool)
    requires i < |groups|
    requires defaults == MissingGroups(groups[..i], userPersonaId)
    requires flag == AddressMissing(groups[..i], userPersonaId)
    requires missing == Filter(FilterFieldsByPersona(FieldsOf(groups[i]), userPersonaId), IsMissingField)
    requires found <==> exists k :: 0 <= k < |missing| && IsTrue(missing[k].isAddressField)
    ensures (if |missing| > 0 then defaults + [groups[i].(fields := Some(missing))] else defaults)
         == MissingGroups(groups[..i + 1], userPersonaId)
    ensures (flag || found) == AddressMissing(groups[..i + 1], userPersonaId)
  {
    assert groups[..i + 1][..i] == groups[..i];
    assert missing == MissingFields(groups[i], userPersonaId);
    AddressMissingStep(groups, i, userPersonaId);
  }

  /** The field filter of a default group, whose callback raises the address flag. */
  method CollectMissingFields(relevant: seq<Field>) returns (missing: seq<Field>, foundAddress: bool)
    ensures missing == Filter(relevant, IsMissingField)
    ensures foundAddress <==> exists k :: 0 <= k < |missing| && IsTrue(missing[k].isAddressField)
  {
    missing, foundAddress := [], false;
    var j := 0;
    while j < |relevant|
      invariant 0 <= j <= |relevant|
      invariant missing == Filter(relevant[..j], IsMissingField)
      invariant foundAddress <==> exists k :: 0 <= k < |missing| && IsTrue(missing[k].isAddressField)
    {
      var field := relevant[j];
      assert relevant[..j + 1][..j] == relevant[..j];
      var isMissing := IsMissingField(field);
      if isMissing && IsTrue(field.isAddressField) {
        foundAddress := true;
      }
      if isMissing {
        var extended := missing + [field];
        assert forall k :: 0 <= k < |missing| ==> extended[k] == missing[k];
        assert extended[|missing|] == field;
        missing := extended;
      }
      j := j + 1;
    }
    assert relevant[..j] == relevant;
  }

  /** The loop over `custom_fields_config`. */
  method CollectCustomGroups(groups: seq<FieldGroup>, userPersonaId: Option<string>) returns (customs: seq<FieldGroup>)
    ensures customs == MissingGroups(groups, userPersonaId)
  {
    customs := [];
    var i := 0;
    while i < |groups|
      invariant 0 <= i <= |groups|
      invariant customs == MissingGroups(groups[..i], userPersonaId)
    {
      var group := groups[i];
      var missing := Filter(FilterFieldsByPersona(FieldsOf(group), userPersonaId), IsMissingField);
      if |missing| > 0 {
        customs := customs + [group.(fields := Some(missing))];
      }
      assert groups[..i + 1][..i] == groups[..i];
      i := i + 1;
    }
    assert groups[..i] == groups;
  }

  /** Extending the groups by one adds exactly that group's missing address fields to the flag. */
  lemma AddressMissingStep(groups: seq<FieldGroup>, i: nat, userPersonaId: Option<string>)
    requires i < |groups|
    ensures AddressMissing(groups[..i + 1], userPersonaId)
        <==> AddressMissing(groups[..i], userPersonaId)
             || exists k :: 0 <= k < |MissingFields(groups[i], userPersonaId)|
                  && IsTrue(MissingFields(groups[i], userPersonaId)[k].isAddressField)
  {
    var prefix, longer := groups[..i], groups[..i + 1];
    assert forall n :: 0 <= n < i ==> longer[n] == prefix[n];
    assert longer[i] == groups[i];
  }

  /**
   * The emitted groups are the input groups, each cut down to its missing
   * fields, with the groups left empty dropped: group order is kept.
   */
  lemma {:induction false} MissingGroupsAreFilteredGroups(groups: seq<FieldGroup>, userPersonaId: Option<string>)
    ensures MissingGroups(groups, userPersonaId)
         == Filter(seq(|groups|, i requires 0 <= i < |groups| => WithMissingFields(groups[i], userPersonaId)), HasFields)
  {
    if groups != [] {
      var n := |groups| - 1;
      MissingGroupsAreFilteredGroups(groups[..n], userPersonaId);
      var all := seq(|groups|, i requires 0 <= i < |groups| => WithMissingFields(groups[i], userPersonaId));
      var prefix := seq(n, i requires 0 <= i < n => WithMissingFields(groups[..n][i], userPersonaId));
      assert all[..n] == prefix;
    }
  }

  /** A group that still lists at least one field. */
  predicate HasFields(g: FieldGroup) {
    g.fields.Some? && |g.fields.value| > 0
  }

  /** Every emitted group lists only persona-relevant, required, empty fields, and at least one. */
  lemma {:induction false} MissingGroupsAreMissing(groups: seq<FieldGroup>, userPersonaId: Option<string>)
    ensures forall g :: g in MissingGroups(groups, userPersonaId) ==>
      && HasFields(g)
      && forall f :: f in g.fields.value ==> Visible(f, userPersonaId) && IsMissingField(f)
  {
    if groups != [] {
      var last := groups[|groups| - 1];
      MissingGroupsAreMissing(groups[..|groups| - 1], userPersonaId);
      PersonaFilterSelects(FieldsOf(last), userPersonaId);
      FilterMembers(FilterFieldsByPersona(FieldsOf(last), userPersonaId), IsMissingField);
    }
  }

  /** A config yields some group iff one of its groups has a missing persona-relevant field. */
  lemma MissingGroupsNonEmptyIff(groups: seq<FieldGroup>, userPersonaId: Option<string>)
    ensures |MissingGroups(groups, userPersonaId)| > 0
        <==> exists i :: 0 <= i < |groups| && |MissingFields(groups[i], userPersonaId)| > 0
  {
    if |MissingGroups(groups, userPersonaId)| > 0 {
      EmittedGroupHasMissing(groups, userPersonaId);
    }
    if exists i :: 0 <= i < |groups| && |MissingFields(groups[i], userPersonaId)| > 0 {
      var i :| 0 <= i < |groups| && |MissingFields(groups[i], userPersonaId)| > 0;
      MissingGroupEmitted(groups, userPersonaId, i);
    }
  }

  lemma EmittedGroupHasMissing(groups: seq<FieldGroup>, userPersonaId: Option<string>)
    requires |MissingGroups(groups, userPersonaId)| > 0
    ensures exists i :: 0 <= i < |groups| && |MissingFields(groups[i], userPersonaId)| > 0
  {
    MissingGroupsFrom(groups, userPersonaId);
    var g := MissingGroups(groups, userPersonaId)[0];
    assert g in MissingGroups(groups, userPersonaId);
    var i :| 0 <= i < |groups| && g == WithMissingFields(groups[i], userPersonaId);
    MissingGroupsAreMissing(groups, userPersonaId);
  }

  lemma MissingGroupEmitted(groups: seq<FieldGroup>, userPersonaId: Option<string>, i: int)
    requires 0 <= i < |groups| && |MissingFields(groups[i], userPersonaId)| > 0
    ensures |MissingGroups(groups, userPersonaId)| > 0
  {
    var cut := seq(|groups|, i requires 0 <= i < |groups| => WithMissingFields(groups[i], userPersonaId));
    MissingGroupsAreFilteredGroups(groups, userPersonaId);
    FilterMembers(cut, HasFields);
    assert HasFields(cut[i]) && cut[i] in cut;
  }

  /**
   * The three flags: consent is missing iff some mandatory item is not
   * accepted; profile is missing iff a default or custom group has a missing
   * field; address is missing iff such a field of a default group is an
   * address field.
   */
  lemma MissingFlagsIff(t: Template, userPersonaId: Option<string>)
    ensures var r := MissingOnly(t, userPersonaId);
      && (r.hasMissingConsent <==> exists item :: item in ListOrEmpty(t.pdpa) && IsMissingConsent(item))
      && (r.hasMissingProfile <==>
           || (exists i :: 0 <= i < |ListOrEmpty(t.defaultFieldsConfig)|
                 && |MissingFields(ListOrEmpty(t.defaultFieldsConfig)[i], userPersonaId)| > 0)
           || (exists i :: 0 <= i < |ListOrEmpty(t.customFieldsConfig)|
                 && |MissingFields(ListOrEmpty(t.customFieldsConfig)[i], userPersonaId)| > 0))
      && (r.hasMissingAddress ==> r.hasMissingProfile)
  {
    var r := MissingOnly(t, userPersonaId);
    MissingGroupsNonEmptyIff(ListOrEmpty(t.defaultFieldsConfig), userPersonaId);
    MissingGroupsNonEmptyIff(ListOrEmpty(t.customFieldsConfig), userPersonaId);
    FilterMembers(ListOrEmpty(t.pdpa), IsMissingConsent);
    if r.hasMissingConsent {
      assert r.missingData.pdpa[0] in r.missingData.pdpa;
    }
  }

  /** The pdpa list keeps exactly the mandatory, unaccepted items, in order. */
  lemma MissingConsents(t: Template, userPersonaId: Option<string>)
    ensures var pdpa := MissingOnly(t, userPersonaId).missingData.pdpa;
      && IsSubsequence(pdpa, ListOrEmpty(t.pdpa))
      && forall item :: item in pdpa <==> item in ListOrEmpty(t.pdpa) && IsMissingConsent(item)
  {
    FilterIsSubsequence(ListOrEmpty(t.pdpa), IsMissingConsent);
    FilterMembers(ListOrEmpty(t.pdpa), IsMissingConsent);
  }

  /** With a selected persona the persona groups are not offered again. */
  lemma PersonaGroupsClearedWhenSelected(t: Template, userPersonaId: Option<string>)
    requires t.persona.Some? && Truthy(t.persona.value.selectedPersonaId)
    ensures var p := MissingOnly(t, userPersonaId).missingData.persona;
      p.Some? && p.value.personaGroups == EmptyList && p.value.selectedPersonaId == t.persona.value.selectedPersonaId
  {
  }

  /**
   * `extractFullFormData(template, userPersonaId)`: every group is kept and
   * only its fields are filtered by persona; absent lists become [], and an
   * absent persona or falsy section null.
   */
  function ExtractFullFormData(t: Template, userPersonaId: Option<string>): (r: FullFormData)
    ensures r.defaultFieldsConfig == PersonaFiltered(ListOrEmpty(t.defaultFieldsConfig), userPersonaId)
    ensures r.customFieldsConfig == PersonaFiltered(ListOrEmpty(t.customFieldsConfig), userPersonaId)
    ensures r.persona == t.persona && r.pdpa == ListOrEmpty(t.pdpa)
    ensures r.selectedSection == OrNullValue(t.selectedSection)
  {
    FullFormData(
      t.persona,
      ListOrEmpty(t.pdpa),
      PersonaFiltered(ListOrEmpty(t.defaultFieldsConfig), userPersonaId),
      PersonaFiltered(ListOrEmpty(t.customFieldsConfig), userPersonaId),
      OrNullValue(t.selectedSection))
  }

  /** `config.map(group => ({ ...group, fields: filterFieldsByPersona(group.fields || [], userPersonaId) }))` */
  function PersonaFiltered(groups: seq<FieldGroup>, userPersonaId: Option<string>): (r: seq<FieldGroup>)
    ensures |r| == |groups|
    ensures forall i :: 0 <= i < |groups| ==> r[i].attributes == groups[i].attributes && r[i].fields.Some?
  {
    seq(|groups|, i requires 0 <= i < |groups| => groups[i].(fields := Some(FilterFieldsByPersona(FieldsOf(groups[i]), userPersonaId))))
  }

  /**
   * The full form keeps every group, in order, with its other properties,
   * and cuts each group's fields down to the persona-visible ones, in order.
   */
  lemma FullFormGroups(groups: seq<FieldGroup>, userPersonaId: Option<string>)
    ensures var r := PersonaFiltered(groups, userPersonaId);
      forall i :: 0 <= i < |groups| ==>
        && IsSubsequence(r[i].fields.value, FieldsOf(groups[i]))
        && forall f :: f in r[i].fields.value <==> f in FieldsOf(groups[i]) && Visible(f, userPersonaId)
  {
    forall i | 0 <= i < |groups|
      ensures var r := PersonaFiltered(groups, userPersonaId);
        && IsSubsequence(r[i].fields.value, FieldsOf(groups[i]))
        && forall f :: f in r[i].fields.value <==> f in FieldsOf(groups[i]) && Visible(f, userPersonaId)
    {
      PersonaFilterSelects(FieldsOf(groups[i]), userPersonaId);
    }
  }

  /**
   * The full form shows everything the missing-only view asks for: each
   * group of the missing view is a group of the full form cut down to a
   * sub-list of its fields.
   */
  lemma MissingWithinFullForm(groups: seq<FieldGroup>, userPersonaId: Option<string>)
    ensures var full := PersonaFiltered(groups, userPersonaId);
      forall g :: g in MissingGroups(groups, userPersonaId) ==>
        exists i :: 0 <= i < |groups| && g.attributes == full[i].attributes
                 && g.fields.Some? && IsSubsequence(g.fields.value, full[i].fields.value)
  {
    MissingGroupsFrom(groups, userPersonaId);
    var full := PersonaFiltered(groups, userPersonaId);
    forall i | 0 <= i < |groups|
      ensures IsSubsequence(MissingFields(groups[i], userPersonaId), full[i].fields.value)
    {
      FilterIsSubsequence(FilterFieldsByPersona(FieldsOf(groups[i]), userPersonaId), IsMissingField);
    }
  }

  /** Every emitted group is some input group with its fields replaced by the missing ones. */
  lemma {:induction false} MissingGroupsFrom(groups: seq<FieldGroup>, userPersonaId: Option<string>)
    ensures forall g :: g in MissingGroups(groups, userPersonaId) ==>
      exists i :: 0 <= i < |groups| && g == WithMissingFields(groups[i], userPersonaId)
  {
    if groups != [] {
      var n := |groups| - 1;
      MissingGroupsFrom(groups[..n], userPersonaId);
      assert forall i :: 0 <= i < n ==> groups[..n][i] == groups[i];
    }
  }

  /**
   * Lines 337-341: when the template has a persona section and the user has
   * a persona, the user's persona becomes the selected one.
   */
  function InjectPersona(t: Option<Template>, userPersonaId: Option<string>): (r: Option<Template>)
    ensures r.Some? <==> t.Some?
    ensures r.Some? ==> r.value.(persona := t.value.persona) == t.value
    ensures !(t.Some? && Truthy(userPersonaId) && t.value.persona.Some?) ==> r == t
    ensures t.Some? && Truthy(userPersonaId) && t.value.persona.Some? ==>
              && r.value.persona.Some?
              && r.value.persona.value.selectedPersonaId == userPersonaId
              && r.value.persona.value.(selectedPersonaId := t.value.persona.value.selectedPersonaId) == t.value.persona.value
  {
    if t.Some? && Truthy(userPersonaId) && t.value.persona.Some?
    then Some(t.value.(persona := Some(t.value.persona.value.(selectedPersonaId := userPersonaId))))
    else t
  }

  /**
   * After injection, a user with a persona sees it as the selected one and
   * is never offered the persona groups.
   */
  lemma InjectedPersonaSelected(t: Option<Template>, userPersonaId: Option<string>)
    requires Truthy(userPersonaId)
    ensures var p := MissingOnly(TemplateOrEmpty(InjectPersona(t, userPersonaId)), userPersonaId).missingData.persona;
      && (p.Some? <==> t.Some? && t.value.persona.Some?)
      && (p.Some? ==> p.value.selectedPersonaId == userPersonaId && p.value.personaGroups == EmptyList)
  {
  }
}
