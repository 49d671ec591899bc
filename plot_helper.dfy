/// The lookup tables and label helpers the benchmark plot scripts use
/// to turn database keys (field and test-case names, build agent names)
/// into plot labels.
module PlotHelper {
  import opened Wrappers

  /// Plot marker per field label.
  const Markers: map<string, string> := map[
    "$2^8$" := "v",
    "$2^{16}$" := "^",
    "$2$" := "o",
    "$2^{32}-5$" := "*"
  ]

  /// Field label per benchmark (finite field) name.
  const Fields: map<string, string> := map[
    "Binary8" := "$2^8$",
    "Binary16" := "$2^{16}$",
    "Binary" := "$2$",
    "Prime2325" := "$2^{32}-5$"
  ]

  /// Algorithm label per test-case name.
  const Algorithms: map<string, string> := map[
    "BackwardFullRLNC" := "Backwards",
    "FullDelayedRLNC" := "Delayed",
    "FullRLNC" := "Standard"
  ]

  /// Operating system and processor of a known build agent.
  datatype SlaveInfo = SlaveInfo(os: string, cpu: string)

  const Slaves: map<string, SlaveInfo> := map[
    "debian0" := SlaveInfo("", ""),
    "debian1" := SlaveInfo("", ""),
    "debian2" := SlaveInfo("Debian testing x86-64", "i7-3770S CPU @ 3.10GHz"),
    "debian3" := SlaveInfo("Debian testing x86-64", "i7-3770S CPU @ 3.10GHz"),
    "debian4" := SlaveInfo("Debian testing x86-64", "i7-3770S CPU @ 3.10GHz"),
    "debian5" := SlaveInfo("", ""),
    "arch1" := SlaveInfo("ArchLinux x86-64", "i7-3770S CPU @ 3.10GHz"),
    "arch2" := SlaveInfo("ArchLinux x86-64", "i7-3770S CPU @ 3.10GHz"),
    "windows1" := SlaveInfo("Windows 7 Enterprise x86-64", "Athlon 64 Processor 3200+ @ 2.00GHz"),
    "windows2" := SlaveInfo("Windows 7 Enterprise x86-64", "Core2 Duo E6550 @ 2.33 GHz"),
    "windows3" := SlaveInfo("Windows 7 Enterprise x86-64", "i7-2600 CPU @ 3.40GHz"),
    "mac1" := SlaveInfo("MacOS, 10.8.5, x86-64", "i5-2400 CPU @ 3.10GHz"),
    "mac2" := SlaveInfo("MacOS, 10.9.1, x86-64", "i5-3210M CPU @ 2.50GHz"),
    "mac3" := SlaveInfo("MacOS, 10.8.5, x86-64", "i5-3210M CPU @ 2.50GHz")
  ]

  /// Dictionary membership followed by indexing; a missing key gives None.
  function Lookup<V>(table: map<string, V>, key: string): Option<V>
  {
    if key in table then Some(table[key]) else None
  }

  function GetMarker(key: string): (r: Option<string>)
    ensures r.Some? <==> key in {"$2^8$", "$2^{16}$", "$2$", "$2^{32}-5$"}
  {
    Lookup(Markers, key)
  }

  /// The four fields map to their labels; every other key, including one
  /// that merely starts with a known key, gives None.
  function GetField(key: string): (r: Option<string>)
    ensures key == "Binary8" ==> r == Some("$2^8$")
    ensures key == "Binary16" ==> r == Some("$2^{16}$")
    ensures key == "Binary" ==> r == Some("$2$")
    ensures key == "Prime2325" ==> r == Some("$2^{32}-5$")
    ensures key !in {"Binary8", "Binary16", "Binary", "Prime2325"} ==> r == None
  {
    Lookup(Fields, key)
  }

  function GetAlgorithm(key: string): (r: Option<string>)
    ensures key == "BackwardFullRLNC" ==> r == Some("Backwards")
    ensures key == "FullDelayedRLNC" ==> r == Some("Delayed")
    ensures key == "FullRLNC" ==> r == Some("Standard")
    ensures key !in {"BackwardFullRLNC", "FullDelayedRLNC", "FullRLNC"} ==> r == None
  {
    Lookup(Algorithms, key)
  }

  /// Python's `str.replace("_", "-")`: every underscore becomes a dash.
  function ReplaceUnderscores(s: string): (r: string)
    ensures |r| == |s|
    ensures forall i :: 0 <= i < |s| ==> r[i] == (if s[i] == '_' then '-' else s[i])
  {
    if s == [] then []
    else [if s[0] == '_' then '-' else s[0]] + ReplaceUnderscores(s[1..])
  }

  /// The text appended for a known agent.
  function SlaveDetails(info: SlaveInfo): string
  {
    "\nOS: " + info.os + "\nCPU: " + info.cpu
  }

  /// The agent description shown on a plot: "ID: " and the name with
  /// dashes for underscores, then the OS and CPU only for a known agent.
  function GetSlave(name: string): (r: string)
    ensures |r| >= 4 + |name| && r[..4] == "ID: "
    ensures r[4..4 + |name|] == ReplaceUnderscores(name)
    ensures name in Slaves ==> r[4 + |name|..] == SlaveDetails(Slaves[name])
    ensures name !in Slaves ==> |r| == 4 + |name|
  {
    var info := Lookup(Slaves, name);
    var id := "ID: " + ReplaceUnderscores(name);
    if info.Some? then id + SlaveDetails(info.value) else id
  }

  /// Every label the field table produces has a plot marker.
  lemma FieldLabelsHaveMarkers(key: string)
    requires GetField(key).Some?
    ensures GetMarker(GetField(key).value).Some?
  {
  }

  /// The field table is injective: two different keys never share a label,
  /// so "Binary8" cannot be read as "Binary" whatever the key order.
  lemma FieldLabelsDistinct(k1: string, k2: string)
    requires GetField(k1).Some? && GetField(k2).Some? && k1 != k2
    ensures GetField(k1) != GetField(k2)
  {
  }

  /// An agent whose name has no underscore is shown under its own name.
  lemma {:induction false} ReplaceWithoutUnderscore(s: string)
    requires '_' !in s
    ensures ReplaceUnderscores(s) == s
  {
    if s != [] {
      ReplaceWithoutUnderscore(s[1..]);
    }
  }

  /// The description never contains an underscore taken from the name.
  lemma NoUnderscoreInId(name: string)
    ensures '_' !in GetSlave(name)[4..4 + |name|]
  {
    var r := GetSlave(name)[4..4 + |name|];
    forall i | 0 <= i < |r|
      ensures r[i] != '_'
    {
      assert r[i] == (if name[i] == '_' then '-' else name[i]);
    }
  }
}
