/** The static pool of devices the simulated scan can find
    (services/scannerService.ts:15-23). */
module DevicePool {
  import opened Types
  import opened Assessment

  const Pool: seq<PoolEntry> := [
    PoolEntry("192.168.1.101", "B8:27:EB:01:23:45", "Raspberry Pi Foundation", Unknown),
    PoolEntry("192.168.1.105", "00:1A:2B:3C:4D:5E", "TP-Link", Router),
    PoolEntry("192.168.1.110", "F8:E0:79:12:34:56", "Wyze Labs", Camera),
    PoolEntry("192.168.1.112", "D8:F1:5B:78:9A:BC", "Philips", Lightbulb),
    PoolEntry("192.168.1.115", "A0:20:A6:DE:F0:12", "Belkin", SmartPlug),
    PoolEntry("192.168.1.120", "18:B4:30:34:56:78", "Google Inc.", Thermostat),
    PoolEntry("192.168.1.121", "C0:A1:B2:C3:D4:E5", "Generic IoT", Unknown)
  ]

  predicate DistinctMacs(es: seq<PoolEntry>)
  {
    forall i, j :: 0 <= i < j < |es| ==> es[i].mac != es[j].mac
  }

  lemma PoolMacsDistinct()
    ensures DistinctMacs(Pool)
  {
  }

  /** The text holds neither of the CSV separators, comma and newline. */
  predicate NoSeparator(s: string)
  {
    forall i :: 0 <= i < |s| ==> s[i] != ',' && s[i] != '\n'
  }

  lemma NoSeparatorExcludes(s: string)
    requires NoSeparator(s)
    ensures ',' !in s && '\n' !in s
  {
  }

  /** No address, MAC address or vendor name in the pool contains a comma or
      a newline. */
  lemma PoolClean()
    ensures forall e :: e in Pool ==> NoSeparator(e.ip) && NoSeparator(e.mac) && NoSeparator(e.vendor)
  {
    forall e | e in Pool ensures NoSeparator(e.ip) && NoSeparator(e.mac) && NoSeparator(e.vendor) {
      var k :| 0 <= k < |Pool| && Pool[k] == e;
      EntryClean(k);
    }
  }

  lemma EntryClean(k: nat)
    requires k < |Pool|
    ensures NoSeparator(Pool[k].ip) && NoSeparator(Pool[k].mac) && NoSeparator(Pool[k].vendor)
  {
    match k
    case 0 => Entry0Clean();
    case 1 => Entry1Clean();
    case 2 => Entry2Clean();
    case 3 => Entry3Clean();
    case 4 => Entry4Clean();
    case 5 => Entry5Clean();
    case _ => Entry6Clean();
  }

  lemma Entry0Clean()
    ensures NoSeparator("192.168.1.101") && NoSeparator("B8:27:EB:01:23:45") && NoSeparator("Raspberry Pi Foundation")
  {
  }

  lemma Entry1Clean()
    ensures NoSeparator("192.168.1.105") && NoSeparator("00:1A:2B:3C:4D:5E") && NoSeparator("TP-Link")
  {
  }

  lemma Entry2Clean()
    ensures NoSeparator("192.168.1.110") && NoSeparator("F8:E0:79:12:34:56") && NoSeparator("Wyze Labs")
  {
  }

  lemma Entry3Clean()
    ensures NoSeparator("192.168.1.112") && NoSeparator("D8:F1:5B:78:9A:BC") && NoSeparator("Philips")
  {
  }

  lemma Entry4Clean()
    ensures NoSeparator("192.168.1.115") && NoSeparator("A0:20:A6:DE:F0:12") && NoSeparator("Belkin")
  {
  }

  lemma Entry5Clean()
    ensures NoSeparator("192.168.1.120") && NoSeparator("18:B4:30:34:56:78") && NoSeparator("Google Inc.")
  {
  }

  lemma Entry6Clean()
    ensures NoSeparator("192.168.1.121") && NoSeparator("C0:A1:B2:C3:D4:E5") && NoSeparator("Generic IoT")
  {
  }
}
