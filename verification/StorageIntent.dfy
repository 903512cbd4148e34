/**
 Storage provisioning of one cluster: identifiers, the container inventory, and
 the two checks every decision of the executor rests on.
 */
module StorageIntent {
  import opened Prelude
  import Text

  /******* UUID texts *******/

  predicate IsHex(c: char) {
    '0' <= c <= '9' || 'a' <= c <= 'f' || 'A' <= c <= 'F'
  }

  predicate UuidShaped(s: string) {
    |s| == 36 && forall k :: 0 <= k < 36 ==> if k in {8, 13, 18, 23} then s[k] == '-' else IsHex(s[k])
  }

  predicate IsNil(s: string) {
    forall k :: 0 <= k < |s| ==> s[k] == '0' || s[k] == '-'
  }

  /** The canonical spelling of a UUID text; None where the source refuses it. */
  function Canonical(s: string): Option<string> {
    if UuidShaped(s) && !IsNil(s) then Some(Text.Lower(s)) else None
  }

  /** Two texts name the same object. */
  predicate SameUuid(a: string, b: string) {
    Canonical(a).Some? && Canonical(a) == Canonical(b)
  }

  /******* Names *******/

  const DEFAULT_PREFIX := "default-container-"

  /** `default-container-[0-9]+` */
  predicate IsDefaultName(s: string) {
    && |DEFAULT_PREFIX| < |s|
    && s[..|DEFAULT_PREFIX|] == DEFAULT_PREFIX
    && forall k :: |DEFAULT_PREFIX| <= k < |s| ==> '0' <= s[k] <= '9'
  }

  predicate IsNumeric(s: string) {
    s != "" && forall k :: 0 <= k < |s| ==> '0' <= s[k] <= '9'
  }

  /******* Intent and inventory *******/

  type Setting = string

  /** A requested container: the API fields it must show, already normalised. */
  datatype Desired = Desired(name: string, expected: map<string, Setting>)

  datatype Default = Default(name: string, uuid: string)

  datatype Intent = Intent(containers: seq<Desired>, cluster: string, default: Option<Default>, reviewed: bool)

  /** An inventory row; `fields` holds what normalises. */
  datatype Row = Row(name: Option<string>, uuid: string, id: string, fields: map<string, Setting>)

  const RESERVED_PREFIX := "default-container"

  /** Default and system containers are never replacements. */
  predicate ReplacementName(s: string) {
    && s != ""
    && !(RESERVED_PREFIX <= Text.Lower(s))
    && Text.Lower(s) !in {"nutanixmanagementshare", "selfservicecontainer"}
  }

  /** `validate_intent(config, reviewed=True)`, as far as the executor depends on it. */
  predicate ValidIntent(config: Intent) {
    && config.reviewed
    && |config.containers| == 3
    && (forall i, j :: 0 <= i < j < 3 ==> Text.Lower(config.containers[i].name) != Text.Lower(config.containers[j].name))
    && (forall i :: 0 <= i < 3 ==> ReplacementName(config.containers[i].name))
    && Canonical(config.cluster).Some?
    && (config.default.Some? ==> IsDefaultName(config.default.value.name) && Canonical(config.default.value.uuid).Some?)
  }

  predicate Named(row: Row, name: string) {
    row.name == Some(name)
  }

  predicate Shows(desired: Desired, row: Row) {
    forall f :: f in desired.expected ==> f in row.fields && row.fields[f] == desired.expected[f]
  }

  predicate Present(rows: seq<Row>, name: string) {
    exists k :: 0 <= k < |rows| && Named(rows[k], name)
  }

  /** Exactly one row carries the name, and it shows every requested setting. */
  predicate VerifiedIn(desired: Desired, rows: seq<Row>) {
    exists k :: 0 <= k < |rows| && Named(rows[k], desired.name) && Shows(desired, rows[k])
                && forall j :: 0 <= j < |rows| && Named(rows[j], desired.name) ==> j == k
  }

  predicate AllVerified(containers: seq<Desired>, rows: seq<Row>) {
    forall i :: 0 <= i < |containers| ==> VerifiedIn(containers[i], rows)
  }

  /** The default container of an inventory; None when the inventory is refused. */
  function Discovered(rows: seq<Row>): Option<Option<Default>> {
    if (exists k :: 0 <= k < |rows| && rows[k].name.None?) || Present(rows, "default-container") then None
    else if exists k :: 0 <= k < |rows| && IsDefaultName(rows[k].name.value) then
      if exists j, k :: 0 <= j < k < |rows| && IsDefaultName(rows[j].name.value) && IsDefaultName(rows[k].name.value) then None
      else
        var k := FirstDefault(rows, 0);
        if Canonical(rows[k].uuid).None? then None
        else Some(Some(Default(rows[k].name.value, Canonical(rows[k].uuid).value)))
    else Some(None)
  }

  function FirstDefault(rows: seq<Row>, from: nat): (k: nat)
    requires exists k :: from <= k < |rows| && rows[k].name.Some? && IsDefaultName(rows[k].name.value)
    ensures from <= k < |rows| && rows[k].name.Some? && IsDefaultName(rows[k].name.value)
    decreases |rows| - from
  {
    if rows[from].name.Some? && IsDefaultName(rows[from].name.value) then from else FirstDefault(rows, from + 1)
  }

  /** A discovered default is the only one, and its row carries its name and a
      spelling of its UUID. */
  lemma DiscoveredIsUnique(rows: seq<Row>, k: nat)
    requires Discovered(rows).Some? && k < |rows|
    ensures rows[k].name.Some?
    ensures Discovered(rows).value.None? ==> !IsDefaultName(rows[k].name.value)
    ensures Discovered(rows).value.Some? && IsDefaultName(rows[k].name.value) ==>
      var found := Discovered(rows).value.value;
      rows[k].name.value == found.name && Canonical(rows[k].uuid) == Some(found.uuid)
  {
    if IsDefaultName(rows[k].name.value) {
      var first := FirstDefault(rows, 0);
      assert first == k;
    }
  }

  /** The row the executor looks for before the removal. */
  predicate Targets(row: Row, target: Default) {
    row.uuid == target.uuid && Named(row, target.name)
  }

  /** An approved default is found in the inventory that shows it if and only if
      the server spells its UUID canonically there. */
  lemma ApprovedTargetFoundIff(rows: seq<Row>, target: Default)
    requires Discovered(rows) == Some(Some(target))
    ensures (exists k :: 0 <= k < |rows| && Targets(rows[k], target)) <==>
      forall k :: 0 <= k < |rows| && IsDefaultName(rows[k].name.value) ==> Canonical(rows[k].uuid) == Some(rows[k].uuid)
  {
    var first := FirstDefault(rows, 0);
    forall k | 0 <= k < |rows|
      ensures IsDefaultName(rows[k].name.value) <==> k == first
      ensures Named(rows[k], target.name) ==> k == first
    {
      DiscoveredIsUnique(rows, k);
    }
    if Canonical(rows[first].uuid) == Some(rows[first].uuid) {
      assert Targets(rows[first], target);
    }
  }

  /******* Dependencies *******/

  /** What the executor compares: every virtual disk names a container, and none
      spells the target's UUID. */
  predicate PassesDependencyCheck(disks: seq<Option<string>>, target: string) {
    forall k :: 0 <= k < |disks| ==> disks[k].Some? && disks[k].value != target
  }

  /** What the comparison stands for. */
  predicate DependencyFree(disks: seq<Option<string>>, target: string) {
    forall k :: 0 <= k < |disks| && disks[k].Some? ==> !SameUuid(disks[k].value, target)
  }

  /** Every spelling of the target in the inventory is the canonical one. */
  predicate SpelledCanonically(disks: seq<Option<string>>, target: string) {
    forall k :: 0 <= k < |disks| && disks[k].Some? && SameUuid(disks[k].value, target) ==>
      Canonical(disks[k].value) == Some(disks[k].value)
  }

  /** The check means what it stands for if and only if the server spells UUIDs
      canonically; the target itself always is. */
  lemma DependencyCheckSoundIff(disks: seq<Option<string>>, target: string)
    requires Canonical(target) == Some(target)
    requires PassesDependencyCheck(disks, target)
    ensures DependencyFree(disks, target) <==> SpelledCanonically(disks, target)
  {
    if SpelledCanonically(disks, target) {
      forall k | 0 <= k < |disks| && disks[k].Some?
        ensures !SameUuid(disks[k].value, target)
      {
        assert disks[k].value != target;
      }
    }
  }

  /** Any target with a letter has a spelling that the check does not see: one
      letter in upper case. */
  lemma UpperCaseDependencyIsMissed(target: string, k: nat) returns (spelled: string)
    requires Canonical(target) == Some(target) && k < |target| && 'a' <= target[k] <= 'f'
    ensures SameUuid(spelled, target)
    ensures PassesDependencyCheck([Some(spelled)], target) && !DependencyFree([Some(spelled)], target)
  {
    spelled := target[k := (target[k] as int - 32) as char];
    assert UuidShaped(spelled);
    assert spelled[k] != '0' && spelled[k] != '-';
    assert Text.Lower(spelled) == Text.Lower(target);
    var disks := [Some(spelled)];
    assert disks[0].Some? && SameUuid(disks[0].value, target);
  }
}
