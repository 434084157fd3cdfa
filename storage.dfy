/** The in-memory storage of the server: saved calculator results, saved expert results and
    leads, each table keyed by an id taken from its own counter. */

module Storage {
  import opened JsValues

  /** An optional field of an insert record: left out, given as null, or given a value. */
  datatype Nullable<T> = Undefined | Null | Defined(value: T)

  /** `x ?? null`: a left-out field becomes null. */
  function OrNull<T>(x: Nullable<T>): (r: Option<T>)
    ensures r.Some? <==> x.Defined?
    ensures x.Defined? ==> r.value == x.value
  {
    if x.Defined? then Some(x.value) else None
  }

  /** A standard calculator result as it is inserted. */
  datatype InsertExitCalculatorResult = InsertExitCalculatorResult(
    industry: string,
    readinessScore: int,
    scoreLabel: string,
    scoreComment: string,
    valuationLow: real,
    valuationHigh: real,
    potentialIncrease: real,
    revenueModel: string,
    answers: Json,
    motivationTags: Json,
    urgency: string)

  /** A stored standard calculator result: the inserted fields and the id. */
  datatype ExitCalculatorResult = ExitCalculatorResult(id: int, fields: InsertExitCalculatorResult)

  /** An expert calculator result as it is inserted. */
  datatype InsertExpertoCalculatorResult = InsertExpertoCalculatorResult(
    industry: string,
    yearlyRevenue: real,
    lastThreeYearsProfit: Json,
    executiveSalary: real,
    avgProfit: real,
    normalizedEBIT: real,
    multiplier: real,
    qualityAdjustment: real,
    baseValue: real,
    companyValue: real,
    additionalData: string,
    answers: Json,
    qualityFactors: Json)

  /** A stored expert calculator result: the inserted fields and the id. */
  datatype ExpertoCalculatorResult = ExpertoCalculatorResult(id: int, fields: InsertExpertoCalculatorResult)

  /** A lead as it is inserted; `contacted` is not part of it. */
  datatype InsertLead = InsertLead(
    firstName: string,
    lastName: string,
    email: string,
    phone: string,
    companyWebsite: string,
    resultId: Nullable<int>,
    expertoResultId: Nullable<int>,
    segment: string,
    calculatorType: Nullable<string>)

  /** A stored lead. */
  datatype Lead = Lead(
    id: int,
    firstName: string,
    lastName: string,
    email: string,
    phone: string,
    companyWebsite: string,
    resultId: Option<int>,
    expertoResultId: Option<int>,
    contacted: bool,
    segment: string,
    calculatorType: Option<string>)

  /** The lead saveLead builds: the inserted fields, the id, not yet contacted, and null for every
      optional field left out. */
  function NewLead(id: int, insertLead: InsertLead): (lead: Lead)
  {
    Lead(id, insertLead.firstName, insertLead.lastName, insertLead.email, insertLead.phone,
         insertLead.companyWebsite, OrNull(insertLead.resultId), OrNull(insertLead.expertoResultId),
         false, insertLead.segment, OrNull(insertLead.calculatorType))
  }

  /** The leads with ids 1 to count, in id order. */
  function LeadsUpTo(leads: map<int, Lead>, count: nat): (all: seq<Lead>)
    requires forall id :: 1 <= id <= count ==> id in leads
    ensures |all| == count
  {
    if count == 0 then [] else LeadsUpTo(leads, count - 1) + [leads[count]]
  }

  /** The lead table after markLeadAsContacted(id). */
  function MarkedContacted(leads: map<int, Lead>, id: int): (r: map<int, Lead>)
  {
    if id in leads then leads[id := leads[id].(contacted := true)] else leads
  }

  class MemStorage {
    var results: map<int, ExitCalculatorResult>
    var expertoResults: map<int, ExpertoCalculatorResult>
    var leads: map<int, Lead>
    var resultsCurrentId: int
    var expertoResultsCurrentId: int
    var leadsCurrentId: int

    /** Every table holds exactly the ids 1 up to its counter, each record under its own id. */
    ghost predicate Valid()
      reads this
    {
      && resultsCurrentId >= 1 && expertoResultsCurrentId >= 1 && leadsCurrentId >= 1
      && (forall id :: id in results <==> 1 <= id < resultsCurrentId)
      && (forall id :: id in results ==> results[id].id == id)
      && (forall id :: id in expertoResults <==> 1 <= id < expertoResultsCurrentId)
      && (forall id :: id in expertoResults ==> expertoResults[id].id == id)
      && (forall id :: id in leads <==> 1 <= id < leadsCurrentId)
      && (forall id :: id in leads ==> leads[id].id == id)
    }

    constructor ()
      ensures Valid()
      ensures results == map[] && expertoResults == map[] && leads == map[]
      ensures resultsCurrentId == 1 && expertoResultsCurrentId == 1 && leadsCurrentId == 1
    {
      results := map[];
      expertoResults := map[];
      leads := map[];
      resultsCurrentId := 1;
      expertoResultsCurrentId := 1;
      leadsCurrentId := 1;
    }

    /** saveCalculatorResult: stores the result under the next id of its own table. */
    method SaveCalculatorResult(insertResult: InsertExitCalculatorResult) returns (result: ExitCalculatorResult)
      requires Valid()
      modifies this
      ensures Valid()
      ensures result == ExitCalculatorResult(old(resultsCurrentId), insertResult)
      ensures result.id !in old(results)
      ensures results == old(results)[result.id := result]
      ensures resultsCurrentId == old(resultsCurrentId) + 1
      ensures GetCalculatorResult(result.id) == Some(result)
      ensures expertoResults == old(expertoResults) && leads == old(leads)
      ensures expertoResultsCurrentId == old(expertoResultsCurrentId) && leadsCurrentId == old(leadsCurrentId)
    {
      var id := resultsCurrentId;
      resultsCurrentId := resultsCurrentId + 1;
      result := ExitCalculatorResult(id, insertResult);
      results := results[id := result];
    }

    /** getCalculatorResult: the result stored under id, if any. */
    function GetCalculatorResult(id: int): (r: Option<ExitCalculatorResult>)
      reads this
      ensures r.Some? <==> id in results
      ensures r.Some? ==> r.value == results[id]
    {
      if id in results then Some(results[id]) else None
    }

    /** saveExpertoCalculatorResult: stores the result under the next id of its own table. */
    method SaveExpertoCalculatorResult(insertResult: InsertExpertoCalculatorResult)
      returns (result: ExpertoCalculatorResult)
      requires Valid()
      modifies this
      ensures Valid()
      ensures result == ExpertoCalculatorResult(old(expertoResultsCurrentId), insertResult)
      ensures result.id !in old(expertoResults)
      ensures expertoResults == old(expertoResults)[result.id := result]
      ensures expertoResultsCurrentId == old(expertoResultsCurrentId) + 1
      ensures GetExpertoCalculatorResult(result.id) == Some(result)
      ensures results == old(results) && leads == old(leads)
      ensures resultsCurrentId == old(resultsCurrentId) && leadsCurrentId == old(leadsCurrentId)
    {
      var id := expertoResultsCurrentId;
      expertoResultsCurrentId := expertoResultsCurrentId + 1;
      result := ExpertoCalculatorResult(id, insertResult);
      expertoResults := expertoResults[id := result];
    }

    /** getExpertoCalculatorResult: the expert result stored under id, if any. */
    function GetExpertoCalculatorResult(id: int): (r: Option<ExpertoCalculatorResult>)
      reads this
      ensures r.Some? <==> id in expertoResults
      ensures r.Some? ==> r.value == expertoResults[id]
    {
      if id in expertoResults then Some(expertoResults[id]) else None
    }

    /** saveLead: stores a new, not yet contacted lead under the next id of the lead table. */
    method SaveLead(insertLead: InsertLead) returns (lead: Lead)
      requires Valid()
      modifies this
      ensures Valid()
      ensures lead == NewLead(old(leadsCurrentId), insertLead)
      ensures lead.id !in old(leads)
      ensures leads == old(leads)[lead.id := lead]
      ensures leadsCurrentId == old(leadsCurrentId) + 1
      ensures GetLead(lead.id) == Some(lead)
      ensures results == old(results) && expertoResults == old(expertoResults)
      ensures resultsCurrentId == old(resultsCurrentId) && expertoResultsCurrentId == old(expertoResultsCurrentId)
    {
      var id := leadsCurrentId;
      leadsCurrentId := leadsCurrentId + 1;
      lead := NewLead(id, insertLead);
      leads := leads[id := lead];
    }

    /** getLead: the lead stored under id, if any. */
    function GetLead(id: int): (r: Option<Lead>)
      reads this
      ensures r.Some? <==> id in leads
      ensures r.Some? ==> r.value == leads[id]
    {
      if id in leads then Some(leads[id]) else None
    }

    /** getAllLeads: the values of the lead map in insertion order, which is id order because
        ids are handed out in increasing order and never removed. */
    method GetAllLeads() returns (all: seq<Lead>)
      requires Valid()
      ensures all == LeadsUpTo(leads, leadsCurrentId - 1)
      ensures |all| == |leads|
      ensures forall i :: 0 <= i < |all| ==> i + 1 in leads && all[i] == leads[i + 1]
      ensures forall lead :: lead in all <==> lead in leads.Values
    {
      LeadsUpToSpec(leads, leadsCurrentId - 1);
      KeysCount(leads, leadsCurrentId - 1);
      all := [];
      var id := 1;
      while id < leadsCurrentId
        invariant 1 <= id <= leadsCurrentId
        invariant all == LeadsUpTo(leads, id - 1)
      {
        all := all + [leads[id]];
        id := id + 1;
      }
    }

    /** markLeadAsContacted: an unknown id changes nothing and gives undefined; a known one has
        its lead replaced by a copy that is contacted. */
    method MarkLeadAsContacted(id: int) returns (r: Option<Lead>)
      requires Valid()
      modifies this
      ensures Valid()
      ensures id !in old(leads) ==> r == None
      ensures id in old(leads) ==> r == Some(old(leads)[id].(contacted := true))
      ensures leads == MarkedContacted(old(leads), id)
      ensures results == old(results) && expertoResults == old(expertoResults)
      ensures resultsCurrentId == old(resultsCurrentId) && expertoResultsCurrentId == old(expertoResultsCurrentId)
      ensures leadsCurrentId == old(leadsCurrentId)
    {
      var lead := GetLead(id);
      if lead.None? {
        return None;
      }
      var updatedLead := lead.value.(contacted := true);
      leads := leads[id := updatedLead];
      r := Some(updatedLead);
    }
  }

  // ------------------------------------------------------------ properties of the tables

  lemma {:induction false} LeadsUpToSpec(leads: map<int, Lead>, count: nat)
    requires forall id :: 1 <= id <= count ==> id in leads
    ensures forall i :: 0 <= i < count ==> LeadsUpTo(leads, count)[i] == leads[i + 1]
    ensures forall lead :: lead in LeadsUpTo(leads, count) <==> exists id :: 1 <= id <= count && leads[id] == lead
  {
    if count > 0 {
      LeadsUpToSpec(leads, count - 1);
      var before := LeadsUpTo(leads, count - 1);
      forall lead | lead in LeadsUpTo(leads, count)
        ensures exists id :: 1 <= id <= count && leads[id] == lead
      {
        if lead !in before {
          assert leads[count] == lead;
        }
      }
      forall lead | exists id :: 1 <= id <= count && leads[id] == lead
        ensures lead in LeadsUpTo(leads, count)
      {
        var id :| 1 <= id <= count && leads[id] == lead;
        if id < count {
          assert lead in before;
        }
      }
    }
  }

  /** A map whose keys are exactly 1 to count has count entries, and its values are the
      entries under those keys. */
  lemma {:induction false} KeysCount(leads: map<int, Lead>, count: nat)
    requires forall id :: id in leads <==> 1 <= id <= count
    ensures |leads| == count
    ensures forall lead :: lead in leads.Values <==> exists id :: 1 <= id <= count && leads[id] == lead
  {
    RangeSize(leads.Keys, count);
  }

  lemma {:induction false} RangeSize(keys: set<int>, count: nat)
    requires forall id :: id in keys <==> 1 <= id <= count
    ensures |keys| == count
  {
    if count > 0 {
      var rest := keys - {count};
      RangeSize(rest, count - 1);
      assert keys == rest + {count};
    } else {
      assert forall id :: id !in keys;
      assert keys == {};
    }
  }

  /** A lead saved next comes last in getAllLeads. */
  lemma LeadsUpToAfterSave(leads: map<int, Lead>, count: nat, lead: Lead)
    requires forall id :: 1 <= id <= count ==> id in leads
    ensures LeadsUpTo(leads[count + 1 := lead], count + 1) == LeadsUpTo(leads, count) + [lead]
  {
    LeadsUpToUnchanged(leads, leads[count + 1 := lead], count);
  }

  lemma {:induction false} LeadsUpToUnchanged(leads: map<int, Lead>, other: map<int, Lead>, count: nat)
    requires forall id :: 1 <= id <= count ==> id in leads && id in other && other[id] == leads[id]
    ensures LeadsUpTo(other, count) == LeadsUpTo(leads, count)
  {
    if count > 0 {
      LeadsUpToUnchanged(leads, other, count - 1);
    }
  }

  /** Marking a lead touches only that lead, and only its contacted flag. */
  lemma MarkedContactedOnlyThatLead(leads: map<int, Lead>, id: int)
    ensures MarkedContacted(leads, id).Keys == leads.Keys
    ensures forall k :: k in leads && k != id ==> MarkedContacted(leads, id)[k] == leads[k]
    ensures id in leads ==> MarkedContacted(leads, id)[id].contacted
    ensures id in leads ==>
      MarkedContacted(leads, id)[id].(contacted := leads[id].contacted) == leads[id]
  {
  }

  /** Marking a lead twice is the same as marking it once. */
  lemma MarkedContactedIdempotent(leads: map<int, Lead>, id: int)
    ensures MarkedContacted(MarkedContacted(leads, id), id) == MarkedContacted(leads, id)
  {
  }

  /** Marking a lead keeps its place in getAllLeads and changes only that entry. */
  lemma LeadsUpToAfterMark(leads: map<int, Lead>, count: nat, id: int)
    requires forall k :: 1 <= k <= count ==> k in leads
    ensures forall i :: 0 <= i < count ==>
      LeadsUpTo(MarkedContacted(leads, id), count)[i]
      == if i + 1 == id then leads[id].(contacted := true) else LeadsUpTo(leads, count)[i]
  {
    LeadsUpToSpec(leads, count);
    LeadsUpToSpec(MarkedContacted(leads, id), count);
  }

  /** A new lead is not contacted, carries the inserted fields, and has null for every optional
      field that was left out. */
  lemma NewLeadFields(id: int, insertLead: InsertLead)
    ensures !NewLead(id, insertLead).contacted && NewLead(id, insertLead).id == id
    ensures insertLead.resultId.Undefined? || insertLead.resultId.Null? ==> NewLead(id, insertLead).resultId == None
    ensures insertLead.expertoResultId.Undefined? || insertLead.expertoResultId.Null? ==>
      NewLead(id, insertLead).expertoResultId == None
    ensures insertLead.calculatorType.Undefined? || insertLead.calculatorType.Null? ==>
      NewLead(id, insertLead).calculatorType == None
    ensures var lead := NewLead(id, insertLead);
      && lead.firstName == insertLead.firstName && lead.lastName == insertLead.lastName
      && lead.email == insertLead.email && lead.phone == insertLead.phone
      && lead.companyWebsite == insertLead.companyWebsite && lead.segment == insertLead.segment
    ensures insertLead.resultId.Defined? ==> NewLead(id, insertLead).resultId == Some(insertLead.resultId.value)
    ensures insertLead.expertoResultId.Defined? ==>
      NewLead(id, insertLead).expertoResultId == Some(insertLead.expertoResultId.value)
    ensures insertLead.calculatorType.Defined? ==>
      NewLead(id, insertLead).calculatorType == Some(insertLead.calculatorType.value)
  {
  }
}
