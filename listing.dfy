/** The text of the crew manifest (`list_crew`) and of the tool list (`list_tools`). */
module Listing {
  import opened Wrappers
  import opened PyText
  import opened Crew

  const ManifestHeading := "CREW MANIFEST:\n══════════════\n"
  const CrewDatabaseEmpty := "ERROR: CREW DATABASE EMPTY"
  const ToolsHeading := "\nTools List: "

  function StatusWord(name: string, current: Option<string>): string {
    if current == Some(name) then "ACTIVE" else "STANDBY"
  }

  /** One manifest line: `[i] NAME - STATUS: ACTIVE` or `... STANDBY`. */
  function CrewEntry(i: nat, name: string, current: Option<string>): string {
    "[" + DecimalString(i) + "] " + Upper(name) + " - STATUS: " + StatusWord(name, current)
  }

  /** The list comprehension over `enumerate(crew.keys(), 1)`. */
  function CrewEntries(names: seq<string>, current: Option<string>): (entries: seq<string>)
    ensures |entries| == |names|
  {
    seq(|names|, i requires 0 <= i < |names| => CrewEntry(i + 1, names[i], current))
  }

  /** How the manifest names the active member; an unset or empty name reads NONE. */
  function ActiveLabel(current: Option<string>): string {
    if current.Some? && current.value != "" then Upper(current.value) else "NONE"
  }

  function CrewManifest(names: seq<string>, current: Option<string>): string {
    ManifestHeading + "Active Crew: " + ActiveLabel(current) + "\n"
    + Join("\n", CrewEntries(names, current))
  }

  /** What `list_crew` appends: the manifest of a non-empty crew, an error otherwise. */
  function ListCrew(crew: Option<Roster>, current: Option<string>): string {
    if crew.Some? && |crew.value.names| > 0 then CrewManifest(crew.value.names, current)
    else CrewDatabaseEmpty
  }

  /** What `list_tools` appends for the tool names the backend reports. */
  function ToolsListing(tools: seq<string>): string {
    ToolsHeading + Join(", ", tools)
  }

  lemma {:induction false} EndsWithStatus(prefix: string, word: string)
    requires |word| >= 6
    ensures EndsWith(prefix + word, "ACTIVE") <==> EndsWith(word, "ACTIVE")
  {
    var s := prefix + word;
    assert s[|s| - 6..] == word[|word| - 6..];
  }

  /**
   * An entry is marked ACTIVE exactly when its name is the current crew
   * member, and every other entry is marked STANDBY.
   */
  lemma {:induction false} EntryActiveIff(names: seq<string>, current: Option<string>, k: nat)
    requires k < |names|
    ensures EndsWith(CrewEntries(names, current)[k], "ACTIVE") <==> current == Some(names[k])
    ensures EndsWith(CrewEntries(names, current)[k],
                     if current == Some(names[k]) then "ACTIVE" else "STANDBY")
  {
    var e := CrewEntries(names, current)[k];
    var prefix := "[" + DecimalString(k + 1) + "] " + Upper(names[k]) + " - STATUS: ";
    assert e == prefix + StatusWord(names[k], current);
    EndsWithStatus(prefix, StatusWord(names[k], current));
    assert "STANDBY"[1..] != "ACTIVE";
  }

  /** With distinct names, at most one entry of the manifest is marked ACTIVE. */
  lemma {:induction false} AtMostOneActive(names: seq<string>, current: Option<string>, j: nat, k: nat)
    requires forall a, b :: 0 <= a < b < |names| ==> names[a] != names[b]
    requires j < |names| && k < |names|
    requires EndsWith(CrewEntries(names, current)[j], "ACTIVE")
    requires EndsWith(CrewEntries(names, current)[k], "ACTIVE")
    ensures j == k
  {
    EntryActiveIff(names, current, j);
    EntryActiveIff(names, current, k);
  }

  /** Entries are numbered from 1 in key order: entry `k` reads back the number `k + 1`. */
  lemma {:induction false} EntryNumber(names: seq<string>, current: Option<string>, k: nat)
    requires k < |names|
    ensures var e := CrewEntries(names, current)[k];
      var digits := DecimalString(k + 1);
      && StartsWith(e, "[" + digits + "] " + Upper(names[k]))
      && DecimalValue(digits) == k + 1
  {
    DecimalRoundTrip(k + 1);
  }

  /** Every crew member's entry appears in the manifest. */
  lemma {:induction false} ManifestListsMember(names: seq<string>, current: Option<string>, k: nat)
    requires k < |names|
    ensures exists off :: OccursAt(CrewManifest(names, current), CrewEntries(names, current)[k], off)
  {
    var entries := CrewEntries(names, current);
    var head := ManifestHeading + "Active Crew: " + ActiveLabel(current) + "\n";
    JoinContains("\n", entries, k);
    var off := JoinOffset("\n", entries, k);
    OccursAfter(head, Join("\n", entries), entries[k], off);
    assert CrewManifest(names, current) == head + Join("\n", entries);
    assert OccursAt(CrewManifest(names, current), entries[k], |head| + off);
  }

  /** Every tool name the backend reports appears in the tool list, after its heading. */
  lemma {:induction false} ToolsListingHasTool(tools: seq<string>, k: nat)
    requires k < |tools|
    ensures exists off :: off >= |ToolsHeading| && OccursAt(ToolsListing(tools), tools[k], off)
  {
    JoinContains(", ", tools, k);
    var off := JoinOffset(", ", tools, k);
    OccursAfter(ToolsHeading, Join(", ", tools), tools[k], off);
    assert OccursAt(ToolsListing(tools), tools[k], |ToolsHeading| + off);
  }
}
