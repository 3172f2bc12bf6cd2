/**
 * The FedEx event-code table: a `Map` built from a literal list of
 * (event code, status) entries, grouped by status.  Two codes, EA and RC, are
 * listed twice; both of their entries say IN_TRANSIT.
 */
module FedexStatusCode {
  import opened Common
  import opened Status

  const DeliveredCodes: seq<string> := ["DL"]
  const ReturnedCodes: seq<string> := ["RS", "RP", "LP", "RG", "RD"]
  const ExceptionCodes: seq<string> := ["CA", "DE", "SE"]
  const OutForDeliveryCodes: seq<string> := ["OD"]
  const LabelCreatedCodes: seq<string> := ["PU", "PX", "OC"]
  /** The IN_TRANSIT run of the literal, in its order, in two halves; EA and RC each occur twice. */
  const InTransitFirst: seq<string> :=
    ["AA", "AC", "AD", "AF", "AP", "AR", "AX", "CH", "DD", "DP", "DR", "DS", "DY", "EA",
     "ED", "EO", "EP", "FD", "HL", "IT"]
  const InTransitSecond: seq<string> :=
    ["IX", "LO", "PF", "PL", "PM", "RR", "RM", "RC", "SF", "SP", "TR", "CC", "CD", "CP",
     "EA", "RC", "OF", "OX", "PD", "SH", "CU", "BR", "TP"]
  const InTransitCodes: seq<string> := InTransitFirst + InTransitSecond

  type Entry = (string, PackageStatus)

  function Pairs(codes: seq<string>, s: PackageStatus): (r: seq<Entry>)
    ensures |r| == |codes|
    ensures forall e :: e in r <==> e.0 in codes && e.1 == s
  {
    var r := seq(|codes|, i requires 0 <= i < |codes| => (codes[i], s));
    assert forall e :: e in r ==> e.0 in codes;
    assert forall k :: k in codes ==> (k, s) in r by {
      forall k | k in codes ensures (k, s) in r {
        var i :| 0 <= i < |codes| && codes[i] == k;
        assert r[i] == (k, s);
      }
    }
    r
  }

  /** The argument of `new Map([...])`, entry by entry, in source order. */
  function Entries(): (r: seq<Entry>)
    ensures |r| == 56
  {
    Pairs(DeliveredCodes, Delivered)
    + Pairs(ReturnedCodes, ReturnedToSender)
    + Pairs(ExceptionCodes, Exception)
    + Pairs(OutForDeliveryCodes, OutForDelivery)
    + Pairs(LabelCreatedCodes, LabelCreated)
    + Pairs(InTransitCodes, InTransit)
  }

  /** `codes.get(code)`: the status of an event code, or `undefined` for a code the table lacks. */
  function Get(code: string): Option<PackageStatus> {
    match code
    case "DL" => Some(Delivered)
    case "RS" => Some(ReturnedToSender)
    case "RP" => Some(ReturnedToSender)
    case "LP" => Some(ReturnedToSender)
    case "RG" => Some(ReturnedToSender)
    case "RD" => Some(ReturnedToSender)
    case "CA" => Some(Exception)
    case "DE" => Some(Exception)
    case "SE" => Some(Exception)
    case "OD" => Some(OutForDelivery)
    case "PU" => Some(LabelCreated)
    case "PX" => Some(LabelCreated)
    case "OC" => Some(LabelCreated)
    case "AA" => Some(InTransit)
    case "AC" => Some(InTransit)
    case "AD" => Some(InTransit)
    case "AF" => Some(InTransit)
    case "AP" => Some(InTransit)
    case "AR" => Some(InTransit)
    case "AX" => Some(InTransit)
    case "CH" => Some(InTransit)
    case "DD" => Some(InTransit)
    case "DP" => Some(InTransit)
    case "DR" => Some(InTransit)
    case "DS" => Some(InTransit)
    case "DY" => Some(InTransit)
    case "EA" => Some(InTransit)
    case "ED" => Some(InTransit)
    case "EO" => Some(InTransit)
    case "EP" => Some(InTransit)
    case "FD" => Some(InTransit)
    case "HL" => Some(InTransit)
    case "IT" => Some(InTransit)
    case "IX" => Some(InTransit)
    case "LO" => Some(InTransit)
    case "PF" => Some(InTransit)
    case "PL" => Some(InTransit)
    case "PM" => Some(InTransit)
    case "RR" => Some(InTransit)
    case "RM" => Some(InTransit)
    case "RC" => Some(InTransit)
    case "SF" => Some(InTransit)
    case "SP" => Some(InTransit)
    case "TR" => Some(InTransit)
    case "CC" => Some(InTransit)
    case "CD" => Some(InTransit)
    case "CP" => Some(InTransit)
    case "OF" => Some(InTransit)
    case "OX" => Some(InTransit)
    case "PD" => Some(InTransit)
    case "SH" => Some(InTransit)
    case "CU" => Some(InTransit)
    case "BR" => Some(InTransit)
    case "TP" => Some(InTransit)
    case _ => None
  }

  /** `codes.get(x)` where `x` may be `undefined`: no entry has an undefined key. */
  function GetOpt(code: Option<string>): (r: Option<PackageStatus>)
    ensures code.None? ==> r.None?
    ensures code.Some? ==> r == Get(code.value)
  {
    match code
    case Some(c) => Get(c)
    case None => None
  }

  lemma InTransitGroup()
    ensures forall k :: k in InTransitCodes ==> Get(k) == Some(InTransit)
  {
    InTransitByIndex();
    forall k | k in InTransitCodes
      ensures Get(k) == Some(InTransit)
    {
      var i :| 0 <= i < |InTransitCodes| && InTransitCodes[i] == k;
    }
  }

  /** Each code of the IN_TRANSIT run, by position. */
  lemma InTransitByIndex()
    ensures forall i :: 0 <= i < |InTransitCodes| ==> Get(InTransitCodes[i]) == Some(InTransit)
  {
  }

  lemma SmallGroups()
    ensures forall k :: k in DeliveredCodes ==> Get(k) == Some(Delivered)
    ensures forall k :: k in ReturnedCodes ==> Get(k) == Some(ReturnedToSender)
    ensures forall k :: k in ExceptionCodes ==> Get(k) == Some(Exception)
    ensures forall k :: k in OutForDeliveryCodes ==> Get(k) == Some(OutForDelivery)
    ensures forall k :: k in LabelCreatedCodes ==> Get(k) == Some(LabelCreated)
  {
  }

  /** Every entry of the literal, including both entries for EA and for RC, is what the table answers. */
  lemma EntriesAgreeWithGet()
    ensures forall e :: e in Entries() ==> Get(e.0) == Some(e.1)
  {
    InTransitGroup();
    SmallGroups();
  }

  /** The table answers nothing that is not an entry of the literal. */
  lemma GetComesFromEntries(k: string)
    ensures Get(k).Some? ==> (k, Get(k).value) in Entries()
  {
    var s := Get(k);
    if s == Some(InTransit) {
      assert k in InTransitCodes;
    } else if s == Some(Delivered) {
      assert k in DeliveredCodes;
    } else if s == Some(ReturnedToSender) {
      assert k in ReturnedCodes;
    } else if s == Some(Exception) {
      assert k in ExceptionCodes;
    } else if s == Some(OutForDelivery) {
      assert k in OutForDeliveryCodes;
    } else if s == Some(LabelCreated) {
      assert k in LabelCreatedCodes;
    }
  }

  /** Entries that share a code share a status, so the literal describes a function. */
  lemma EntriesAreFunctional()
    ensures forall e, e' :: e in Entries() && e' in Entries() && e.0 == e'.0 ==> e.1 == e'.1
  {
    EntriesAgreeWithGet();
  }

  /** `new Map(entries)`: entries are inserted in order, a later one replacing an earlier one with the same key. */
  function MapOf(es: seq<Entry>): map<string, PackageStatus>
    decreases |es|
  {
    if es == [] then map[] else MapOf(es[..|es| - 1])[es[|es| - 1].0 := es[|es| - 1].1]
  }

  /** Inserting entries that all agree with the table gives the table restricted to their keys. */
  lemma {:induction false} MapOfAgreeing(es: seq<Entry>)
    requires forall e :: e in es ==> Get(e.0) == Some(e.1)
    ensures forall k :: k in MapOf(es) <==> exists e :: e in es && e.0 == k
    ensures forall k :: k in MapOf(es) ==> Get(k) == Some(MapOf(es)[k])
  {
    if es != [] {
      var init := es[..|es| - 1];
      assert forall e :: e in init ==> e in es;
      MapOfAgreeing(init);
      forall k | exists e :: e in es && e.0 == k
        ensures k in MapOf(es)
      {
        var e :| e in es && e.0 == k;
        if e != es[|es| - 1] {
          assert e in init;
        }
      }
    }
  }

  /**
   * The map the source builds is the table, whichever order its entries are
   * inserted in: every ordering of the literal gives the same `Map`, and a code
   * that is not listed has no entry at all.
   */
  lemma MapIsTableInAnyOrder(es: seq<Entry>, k: string)
    requires multiset(es) == multiset(Entries())
    ensures k in MapOf(es) <==> Get(k).Some?
    ensures k in MapOf(es) ==> MapOf(es)[k] == Get(k).value
  {
    assert forall e :: e in es <==> e in Entries() by {
      forall e ensures e in es <==> e in Entries() {
        assert e in es <==> e in multiset(es);
        assert e in Entries() <==> e in multiset(Entries());
      }
    }
    EntriesAgreeWithGet();
    MapOfAgreeing(es);
    GetComesFromEntries(k);
  }

  /** A code with no entry in the literal has no status: the lookup yields `undefined`, not a default. */
  lemma UnlistedCodeIsAbsent(k: string)
    requires forall e :: e in Entries() ==> e.0 != k
    ensures Get(k).None?
  {
    GetComesFromEntries(k);
  }

  /** DL is DELIVERED and OD is OUT_FOR_DELIVERY. */
  lemma DeliveredAndOutForDelivery()
    ensures Get("DL") == Some(Delivered) && Get("OD") == Some(OutForDelivery)
  {
  }

  /** No event code maps to UNAVAILABLE or to DELIVERY_ATTEMPTED. */
  lemma NeverUnavailableOrAttempted(k: string)
    ensures Get(k) != Some(Unavailable) && Get(k) != Some(DeliveryAttempted)
  {
  }
}
