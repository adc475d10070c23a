/** `Boleto`: a bank slip built on the client before it is sent for creation.
    Its map constructor is strict: each of sixteen recognised keys is taken out of a
    working copy of the caller's map, and anything left over is an error. `create` turns
    a mixed list of maps and Boletos into the list it would post. */
module Boletos {
  import opened JavaValues
  import opened JavaMaps

  /** The Boleto's fields, in the order of the full constructor. The last six are
      assigned by the server and stay null on a Boleto built on the client.
      `descriptions` and `discounts` are lists of whatever the caller put in them: the
      constructor's cast to `List<Boleto.Description>` does not look at the elements. */
  datatype Boleto = Boleto(
    amount: Int64,
    name: Option<string>,
    taxId: Option<string>,
    streetLine1: Option<string>,
    streetLine2: Option<string>,
    district: Option<string>,
    city: Option<string>,
    stateCode: Option<string>,
    zipCode: Option<string>,
    due: Option<string>,
    fine: Option<Double>,
    interest: Option<Double>,
    overdueLimit: Option<Int32>,
    tags: Option<seq<Option<string>>>,
    descriptions: Option<seq<Value>>,
    discounts: Option<seq<Value>>,
    id: Option<string>,
    fee: Option<Int32>,
    line: Option<string>,
    barCode: Option<string>,
    status: Option<string>,
    created: Option<string>)
  {
    /** None of the server-assigned fields is set. */
    predicate Unsent() {
      id.None? && fee.None? && line.None? && barCode.None? && status.None? && created.None?
    }
  }

  /** The one-argument `Boleto.Description(text)` constructor: no amount. */
  function TextDescription(text: Option<string>): (d: Description)
    ensures d.text == text && d.amount.None?
  {
    Description(text, None)
  }

  /** The keys the map constructor recognises, in the order it takes them out. */
  const FieldKeys: seq<string> := ["amount", "name", "taxId", "streetLine1", "streetLine2",
    "district", "city", "stateCode", "zipCode", "due", "fine", "interest", "overdueLimit",
    "tags", "descriptions", "discounts"]

  /** The same sixteen keys as `FieldKeys`, as a set: what the constructor leaves in
      its copy is whatever lies outside it. */
  const RecognizedKeys: set<string> := {"amount", "name", "taxId", "streetLine1", "streetLine2",
    "district", "city", "stateCode", "zipCode", "due", "fine", "interest", "overdueLimit",
    "tags", "descriptions", "discounts"}

  function ErrorOf<T>(r: Result<T, Exception>): Option<Exception> {
    if r.Failure? then Some(r.error) else None
  }

  /** The exception, if any, that the constructor's `i`-th cast throws: the cast applied
      to the value of `FieldKeys[i]`. */
  function Rejection(data: map<string, Value>, i: nat): Option<Exception>
    requires i < |FieldKeys|
  {
    if i == 0 then ErrorOf(CastLongValue("amount", Lookup(data, "amount")))
    else if i == 1 then ErrorOf(CastString("name", Lookup(data, "name")))
    else if i == 2 then ErrorOf(CastString("taxId", Lookup(data, "taxId")))
    else if i == 3 then ErrorOf(CastString("streetLine1", Lookup(data, "streetLine1")))
    else if i == 4 then ErrorOf(CastString("streetLine2", Lookup(data, "streetLine2")))
    else if i == 5 then ErrorOf(CastString("district", Lookup(data, "district")))
    else if i == 6 then ErrorOf(CastString("city", Lookup(data, "city")))
    else if i == 7 then ErrorOf(CastString("stateCode", Lookup(data, "stateCode")))
    else if i == 8 then ErrorOf(CastString("zipCode", Lookup(data, "zipCode")))
    else if i == 9 then ErrorOf(CastString("due", Lookup(data, "due")))
    else if i == 10 then ErrorOf(CastDouble("fine", Lookup(data, "fine")))
    else if i == 11 then ErrorOf(CastDouble("interest", Lookup(data, "interest")))
    else if i == 12 then ErrorOf(CastInteger("overdueLimit", Lookup(data, "overdueLimit")))
    else if i == 13 then ErrorOf(CastStringArray("tags", Lookup(data, "tags")))
    else if i == 14 then ErrorOf(CastList("descriptions", Lookup(data, "descriptions")))
    else ErrorOf(CastList("discounts", Lookup(data, "discounts")))
  }

  /** Every recognised key holds a value its cast accepts (an absent key reads as null). */
  predicate AllAdmitted(data: map<string, Value>) {
    && CastLongValue("amount", Lookup(data, "amount")).Success?
    && CastString("name", Lookup(data, "name")).Success?
    && CastString("taxId", Lookup(data, "taxId")).Success?
    && CastString("streetLine1", Lookup(data, "streetLine1")).Success?
    && CastString("streetLine2", Lookup(data, "streetLine2")).Success?
    && CastString("district", Lookup(data, "district")).Success?
    && CastString("city", Lookup(data, "city")).Success?
    && CastString("stateCode", Lookup(data, "stateCode")).Success?
    && CastString("zipCode", Lookup(data, "zipCode")).Success?
    && CastString("due", Lookup(data, "due")).Success?
    && CastDouble("fine", Lookup(data, "fine")).Success?
    && CastDouble("interest", Lookup(data, "interest")).Success?
    && CastInteger("overdueLimit", Lookup(data, "overdueLimit")).Success?
    && CastStringArray("tags", Lookup(data, "tags")).Success?
    && CastList("descriptions", Lookup(data, "descriptions")).Success?
    && CastList("discounts", Lookup(data, "discounts")).Success?
  }

  /** `AllAdmitted` says that none of the sixteen casts throws. */
  lemma AllAdmittedByIndex(data: map<string, Value>)
    ensures AllAdmitted(data) <==> forall i :: 0 <= i < |FieldKeys| ==> Rejection(data, i).None?
  {
    if AllAdmitted(data) {
      forall i | 0 <= i < |FieldKeys| ensures Rejection(data, i).None? {
        assert i < 16;
      }
    } else {
      // one of the sixteen casts throws; naming each index lets the quantifier see it
      assert !(Rejection(data, 0).None?
           && Rejection(data, 1).None?
           && Rejection(data, 2).None?
           && Rejection(data, 3).None?
           && Rejection(data, 4).None?
           && Rejection(data, 5).None?
           && Rejection(data, 6).None?
           && Rejection(data, 7).None?
           && Rejection(data, 8).None?
           && Rejection(data, 9).None?
           && Rejection(data, 10).None?
           && Rejection(data, 11).None?
           && Rejection(data, 12).None?
           && Rejection(data, 13).None?
           && Rejection(data, 14).None?
           && Rejection(data, 15).None?);
    }
  }

  /** What `new Boleto(data)` produces or throws. */
  function Parse(data: map<string, Value>): Result<Boleto, Exception> {
    var amount :- CastLongValue("amount", Lookup(data, "amount"));
    var name :- CastString("name", Lookup(data, "name"));
    var taxId :- CastString("taxId", Lookup(data, "taxId"));
    var streetLine1 :- CastString("streetLine1", Lookup(data, "streetLine1"));
    var streetLine2 :- CastString("streetLine2", Lookup(data, "streetLine2"));
    var district :- CastString("district", Lookup(data, "district"));
    var city :- CastString("city", Lookup(data, "city"));
    var stateCode :- CastString("stateCode", Lookup(data, "stateCode"));
    var zipCode :- CastString("zipCode", Lookup(data, "zipCode"));
    var due :- CastString("due", Lookup(data, "due"));
    var fine :- CastDouble("fine", Lookup(data, "fine"));
    var interest :- CastDouble("interest", Lookup(data, "interest"));
    var overdueLimit :- CastInteger("overdueLimit", Lookup(data, "overdueLimit"));
    var tags :- CastStringArray("tags", Lookup(data, "tags"));
    var descriptions :- CastList("descriptions", Lookup(data, "descriptions"));
    var discounts :- CastList("discounts", Lookup(data, "discounts"));
    var leftover := data.Keys - RecognizedKeys;
    if leftover != {} then Failure(UnknownParameters(leftover))
    else Success(Boleto(amount, name, taxId, streetLine1, streetLine2, district, city, stateCode,
      zipCode, due, fine, interest, overdueLimit, tags, descriptions, discounts,
      None, None, None, None, None, None))
  }

  // What `dataCopy` still holds when each key is removed: earlier removals never touch a
  // later key, so every cast sees the caller's value.

  lemma DrainPayer(data: map<string, Value>)
    ensures Lookup(data - {"amount"}, "name") == Lookup(data, "name")
    ensures Lookup(data - {"amount"} - {"name"}, "taxId") == Lookup(data, "taxId")
    ensures Lookup(data - {"amount"} - {"name"}
        - {"taxId"}, "streetLine1") == Lookup(data, "streetLine1")
  {
  }

  lemma DrainStreet(data: map<string, Value>)
    ensures Lookup(data - {"amount"} - {"name"} - {"taxId"}
        - {"streetLine1"}, "streetLine2") == Lookup(data, "streetLine2")
    ensures Lookup(data - {"amount"} - {"name"} - {"taxId"} - {"streetLine1"}
        - {"streetLine2"}, "district") == Lookup(data, "district")
    ensures Lookup(data - {"amount"} - {"name"} - {"taxId"} - {"streetLine1"} - {"streetLine2"}
        - {"district"}, "city") == Lookup(data, "city")
  {
  }

  lemma DrainRegion(data: map<string, Value>)
    ensures Lookup(data - {"amount"} - {"name"} - {"taxId"} - {"streetLine1"} - {"streetLine2"}
        - {"district"} - {"city"}, "stateCode") == Lookup(data, "stateCode")
    ensures Lookup(data - {"amount"} - {"name"} - {"taxId"} - {"streetLine1"} - {"streetLine2"}
        - {"district"} - {"city"} - {"stateCode"}, "zipCode") == Lookup(data, "zipCode")
    ensures Lookup(data - {"amount"} - {"name"} - {"taxId"} - {"streetLine1"} - {"streetLine2"}
        - {"district"} - {"city"} - {"stateCode"} - {"zipCode"}, "due") == Lookup(data, "due")
  {
  }

  lemma DrainCharges(data: map<string, Value>)
    ensures Lookup(data - {"amount"} - {"name"} - {"taxId"} - {"streetLine1"} - {"streetLine2"}
        - {"district"} - {"city"} - {"stateCode"} - {"zipCode"}
        - {"due"}, "fine") == Lookup(data, "fine")
    ensures Lookup(data - {"amount"} - {"name"} - {"taxId"} - {"streetLine1"} - {"streetLine2"}
        - {"district"} - {"city"} - {"stateCode"} - {"zipCode"} - {"due"}
        - {"fine"}, "interest") == Lookup(data, "interest")
    ensures Lookup(data - {"amount"} - {"name"} - {"taxId"} - {"streetLine1"} - {"streetLine2"}
        - {"district"} - {"city"} - {"stateCode"} - {"zipCode"} - {"due"} - {"fine"}
        - {"interest"}, "overdueLimit") == Lookup(data, "overdueLimit")
  {
  }

  lemma DrainLists(data: map<string, Value>)
    ensures Lookup(data - {"amount"} - {"name"} - {"taxId"} - {"streetLine1"} - {"streetLine2"}
        - {"district"} - {"city"} - {"stateCode"} - {"zipCode"} - {"due"} - {"fine"}
        - {"interest"} - {"overdueLimit"}, "tags") == Lookup(data, "tags")
    ensures Lookup(data - {"amount"} - {"name"} - {"taxId"} - {"streetLine1"} - {"streetLine2"}
        - {"district"} - {"city"} - {"stateCode"} - {"zipCode"} - {"due"} - {"fine"}
        - {"interest"} - {"overdueLimit"}
        - {"tags"}, "descriptions") == Lookup(data, "descriptions")
    ensures Lookup(data - {"amount"} - {"name"} - {"taxId"} - {"streetLine1"} - {"streetLine2"}
        - {"district"} - {"city"} - {"stateCode"} - {"zipCode"} - {"due"} - {"fine"}
        - {"interest"} - {"overdueLimit"} - {"tags"}
        - {"descriptions"}, "discounts") == Lookup(data, "discounts")
  {
  }

  /** After all sixteen removals, the copy holds exactly the unrecognised entries. */
  lemma DrainLeftovers(data: map<string, Value>)
    ensures (data - {"amount"} - {"name"} - {"taxId"} - {"streetLine1"} - {"streetLine2"}
        - {"district"} - {"city"} - {"stateCode"} - {"zipCode"} - {"due"} - {"fine"}
        - {"interest"} - {"overdueLimit"} - {"tags"} - {"descriptions"}
        - {"discounts"}).Keys == data.Keys - RecognizedKeys
  {
  }

  /** The map constructor `Boleto(Map)`: copies the caller's entries into a fresh HashMap,
      removes the sixteen recognised keys one by one, casting each value, and fails if the
      copy is not empty afterwards. Only the copy is drained: the caller's map keeps its
      entries. */
  method FromMap(data: HashMap) returns (r: Result<Boleto, Exception>)
    ensures r == Parse(data.entries)
    ensures data.entries == old(data.entries)
  {
    var dataCopy := new HashMap(data.entries);
    DrainPayer(data.entries);
    DrainStreet(data.entries);
    DrainRegion(data.entries);
    DrainCharges(data.entries);
    DrainLists(data.entries);
    DrainLeftovers(data.entries);
    ghost var rest := data.entries;
    var v := dataCopy.Remove("amount");
    rest := rest - {"amount"};
    assert dataCopy.entries == rest;
    var amount :- CastLongValue("amount", v);
    v := dataCopy.Remove("name");
    rest := rest - {"name"};
    assert dataCopy.entries == rest;
    var name :- CastString("name", v);
    v := dataCopy.Remove("taxId");
    rest := rest - {"taxId"};
    assert dataCopy.entries == rest;
    var taxId :- CastString("taxId", v);
    v := dataCopy.Remove("streetLine1");
    rest := rest - {"streetLine1"};
    assert dataCopy.entries == rest;
    var streetLine1 :- CastString("streetLine1", v);
    v := dataCopy.Remove("streetLine2");
    rest := rest - {"streetLine2"};
    assert dataCopy.entries == rest;
    var streetLine2 :- CastString("streetLine2", v);
    v := dataCopy.Remove("district");
    rest := rest - {"district"};
    assert dataCopy.entries == rest;
    var district :- CastString("district", v);
    v := dataCopy.Remove("city");
    rest := rest - {"city"};
    assert dataCopy.entries == rest;
    var city :- CastString("city", v);
    v := dataCopy.Remove("stateCode");
    rest := rest - {"stateCode"};
    assert dataCopy.entries == rest;
    var stateCode :- CastString("stateCode", v);
    v := dataCopy.Remove("zipCode");
    rest := rest - {"zipCode"};
    assert dataCopy.entries == rest;
    var zipCode :- CastString("zipCode", v);
    v := dataCopy.Remove("due");
    rest := rest - {"due"};
    assert dataCopy.entries == rest;
    var due :- CastString("due", v);
    v := dataCopy.Remove("fine");
    rest := rest - {"fine"};
    assert dataCopy.entries == rest;
    var fine :- CastDouble("fine", v);
    v := dataCopy.Remove("interest");
    rest := rest - {"interest"};
    assert dataCopy.entries == rest;
    var interest :- CastDouble("interest", v);
    v := dataCopy.Remove("overdueLimit");
    rest := rest - {"overdueLimit"};
    assert dataCopy.entries == rest;
    var overdueLimit :- CastInteger("overdueLimit", v);
    v := dataCopy.Remove("tags");
    rest := rest - {"tags"};
    assert dataCopy.entries == rest;
    var tags :- CastStringArray("tags", v);
    v := dataCopy.Remove("descriptions");
    rest := rest - {"descriptions"};
    assert dataCopy.entries == rest;
    var descriptions :- CastList("descriptions", v);
    v := dataCopy.Remove("discounts");
    rest := rest - {"discounts"};
    assert dataCopy.entries == rest;
    var discounts :- CastList("discounts", v);
    var empty := dataCopy.IsEmpty();
    if !empty {
      return Failure(UnknownParameters(dataCopy.KeySet()));
    }
    r := Success(Boleto(amount, name, taxId, streetLine1, streetLine2, district, city, stateCode,
      zipCode, due, fine, interest, overdueLimit, tags, descriptions, discounts,
      None, None, None, None, None, None));
  }

  // ---------------------------------------------------------------------------------
  // What the map constructor accepts and rejects

  /** The `i`-th cast only ever complains about `FieldKeys[i]`. */
  lemma RejectionNamesKey(data: map<string, Value>, i: nat)
    requires i < |FieldKeys| && Rejection(data, i).Some?
    ensures Rejection(data, i).value == ClassCast(FieldKeys[i])
         || (i == 0 && Lookup(data, "amount").Null?
             && Rejection(data, i).value == NullPointer("amount"))
  {
  }

  /** The premise of `ParseFailsAtFirstRejected`, one earlier key at a time. */
  lemma EarlierAdmitted(data: map<string, Value>, i: nat)
    requires i <= |FieldKeys|
    requires forall j :: 0 <= j < i ==> Rejection(data, j).None?
    ensures 0 < i ==> Rejection(data, 0).None?
    ensures 1 < i ==> Rejection(data, 1).None?
    ensures 2 < i ==> Rejection(data, 2).None?
    ensures 3 < i ==> Rejection(data, 3).None?
    ensures 4 < i ==> Rejection(data, 4).None?
    ensures 5 < i ==> Rejection(data, 5).None?
    ensures 6 < i ==> Rejection(data, 6).None?
    ensures 7 < i ==> Rejection(data, 7).None?
    ensures 8 < i ==> Rejection(data, 8).None?
    ensures 9 < i ==> Rejection(data, 9).None?
    ensures 10 < i ==> Rejection(data, 10).None?
    ensures 11 < i ==> Rejection(data, 11).None?
    ensures 12 < i ==> Rejection(data, 12).None?
    ensures 13 < i ==> Rejection(data, 13).None?
    ensures 14 < i ==> Rejection(data, 14).None?
  {
  }

  /** The first key whose cast fails decides the exception: keys are taken in order. */
  lemma ParseFailsAtFirstRejected(data: map<string, Value>, i: nat)
    requires i < |FieldKeys| && Rejection(data, i).Some?
    requires forall j :: 0 <= j < i ==> Rejection(data, j).None?
    ensures Parse(data) == Failure(Rejection(data, i).value)
  {
    EarlierAdmitted(data, i);
    assert i < 16;
  }

  /** If some cast fails, the earliest failing one decides the outcome. */
  lemma {:induction false} FirstRejected(data: map<string, Value>, i: nat)
    requires i < |FieldKeys| && Rejection(data, i).Some?
    ensures Parse(data).Failure?
    decreases i
  {
    if j :| 0 <= j < i && Rejection(data, j).Some? {
      FirstRejected(data, j);
    } else {
      ParseFailsAtFirstRejected(data, i);
    }
  }

  /** A missing or null `amount` is unboxed and throws, whatever else the map holds. */
  lemma ParseNeedsAmount(data: map<string, Value>)
    requires Lookup(data, "amount").Null?
    ensures Parse(data) == Failure(NullPointer("amount"))
  {
  }

  /** Well-typed values but extra keys: the error names exactly the leftover keys. */
  lemma ParseRejectsLeftovers(data: map<string, Value>)
    requires AllAdmitted(data)
    requires !(data.Keys <= RecognizedKeys)
    ensures Parse(data) == Failure(UnknownParameters(data.Keys - RecognizedKeys))
  {
  }

  /** Well-typed values under recognised keys only: a Boleto whose every field is the
      value its key maps to (null when absent) and whose server-assigned fields are null. */
  lemma ParseAccepts(data: map<string, Value>)
    requires AllAdmitted(data)
    requires data.Keys <= RecognizedKeys
    ensures Parse(data).Success?
    ensures var b := Parse(data).value;
      && b.Unsent()
      && Success(b.amount) == CastLongValue("amount", Lookup(data, "amount"))
      && Success(b.name) == CastString("name", Lookup(data, "name"))
      && Success(b.taxId) == CastString("taxId", Lookup(data, "taxId"))
      && Success(b.streetLine1) == CastString("streetLine1", Lookup(data, "streetLine1"))
      && Success(b.streetLine2) == CastString("streetLine2", Lookup(data, "streetLine2"))
      && Success(b.district) == CastString("district", Lookup(data, "district"))
      && Success(b.city) == CastString("city", Lookup(data, "city"))
      && Success(b.stateCode) == CastString("stateCode", Lookup(data, "stateCode"))
      && Success(b.zipCode) == CastString("zipCode", Lookup(data, "zipCode"))
      && Success(b.due) == CastString("due", Lookup(data, "due"))
      && Success(b.fine) == CastDouble("fine", Lookup(data, "fine"))
      && Success(b.interest) == CastDouble("interest", Lookup(data, "interest"))
      && Success(b.overdueLimit) == CastInteger("overdueLimit", Lookup(data, "overdueLimit"))
      && Success(b.tags) == CastStringArray("tags", Lookup(data, "tags"))
      && Success(b.descriptions) == CastList("descriptions", Lookup(data, "descriptions"))
      && Success(b.discounts) == CastList("discounts", Lookup(data, "discounts"))
  {
    var b := Boleto(CastLongValue("amount", Lookup(data, "amount")).value,
      CastString("name", Lookup(data, "name")).value,
      CastString("taxId", Lookup(data, "taxId")).value,
      CastString("streetLine1", Lookup(data, "streetLine1")).value,
      CastString("streetLine2", Lookup(data, "streetLine2")).value,
      CastString("district", Lookup(data, "district")).value,
      CastString("city", Lookup(data, "city")).value,
      CastString("stateCode", Lookup(data, "stateCode")).value,
      CastString("zipCode", Lookup(data, "zipCode")).value,
      CastString("due", Lookup(data, "due")).value,
      CastDouble("fine", Lookup(data, "fine")).value,
      CastDouble("interest", Lookup(data, "interest")).value,
      CastInteger("overdueLimit", Lookup(data, "overdueLimit")).value,
      CastStringArray("tags", Lookup(data, "tags")).value,
      CastList("descriptions", Lookup(data, "descriptions")).value,
      CastList("discounts", Lookup(data, "discounts")).value,
      None, None, None, None, None, None);
    assert Parse(data) == Success(b);
  }

  /** The constructor succeeds exactly when every recognised key holds a value its cast
      accepts and no other key is present. */
  lemma ParseSucceedsIff(data: map<string, Value>)
    ensures Parse(data).Success? <==> AllAdmitted(data) && data.Keys <= RecognizedKeys
  {
    if !AllAdmitted(data) {
      AllAdmittedByIndex(data);
      var i :| 0 <= i < |FieldKeys| && Rejection(data, i).Some?;
      FirstRejected(data, i);
    } else if data.Keys <= RecognizedKeys {
      ParseAccepts(data);
    } else {
      ParseRejectsLeftovers(data);
    }
  }

  /** Entries under unrecognised keys never affect the casts. */
  lemma AdmittedDependsOnRecognizedKeys(data: map<string, Value>, other: map<string, Value>)
    requires AllAdmitted(data)
    requires forall k :: k in RecognizedKeys ==> Lookup(data, k) == Lookup(other, k)
    ensures AllAdmitted(other)
  {
  }

  /** Adding a single unrecognised key to a map the constructor accepts makes it fail,
      and the error names just that key. */
  lemma ParseRejectsAnyExtraKey(data: map<string, Value>, key: string, v: Value)
    requires Parse(data).Success?
    requires key !in RecognizedKeys
    ensures Parse(data[key := v]) == Failure(UnknownParameters({key}))
  {
    ParseSucceedsIff(data);
    AdmittedDependsOnRecognizedKeys(data, data[key := v]);
    assert data[key := v].Keys - RecognizedKeys == {key};
    ParseRejectsLeftovers(data[key := v]);
  }

  /** A map whose every recognised value casts to the matching field of an unsent `b`,
      and that holds no other key, builds `b`. */
  lemma ParseBuilds(data: map<string, Value>, b: Boleto)
    requires data.Keys <= RecognizedKeys && b.Unsent()
    requires CastLongValue("amount", Lookup(data, "amount")) == Success(b.amount)
    requires CastString("name", Lookup(data, "name")) == Success(b.name)
    requires CastString("taxId", Lookup(data, "taxId")) == Success(b.taxId)
    requires CastString("streetLine1", Lookup(data, "streetLine1")) == Success(b.streetLine1)
    requires CastString("streetLine2", Lookup(data, "streetLine2")) == Success(b.streetLine2)
    requires CastString("district", Lookup(data, "district")) == Success(b.district)
    requires CastString("city", Lookup(data, "city")) == Success(b.city)
    requires CastString("stateCode", Lookup(data, "stateCode")) == Success(b.stateCode)
    requires CastString("zipCode", Lookup(data, "zipCode")) == Success(b.zipCode)
    requires CastString("due", Lookup(data, "due")) == Success(b.due)
    requires CastDouble("fine", Lookup(data, "fine")) == Success(b.fine)
    requires CastDouble("interest", Lookup(data, "interest")) == Success(b.interest)
    requires CastInteger("overdueLimit", Lookup(data, "overdueLimit")) == Success(b.overdueLimit)
    requires CastStringArray("tags", Lookup(data, "tags")) == Success(b.tags)
    requires CastList("descriptions", Lookup(data, "descriptions")) == Success(b.descriptions)
    requires CastList("discounts", Lookup(data, "discounts")) == Success(b.discounts)
    ensures Parse(data) == Success(b)
  {
    ParseAccepts(data);
  }

  /** The map a Boleto built with the full constructor corresponds to: each field under
      its key, a null field as a null value. */
  function FieldMap(b: Boleto): map<string, Value>
  {
    map["amount" := JLong(b.amount),
        "name" := StringValue(b.name),
        "taxId" := StringValue(b.taxId),
        "streetLine1" := StringValue(b.streetLine1),
        "streetLine2" := StringValue(b.streetLine2),
        "district" := StringValue(b.district),
        "city" := StringValue(b.city),
        "stateCode" := StringValue(b.stateCode),
        "zipCode" := StringValue(b.zipCode),
        "due" := StringValue(b.due),
        "fine" := if b.fine.Some? then JDouble(b.fine.value) else Null,
        "interest" := if b.interest.Some? then JDouble(b.interest.value) else Null,
        "overdueLimit" := if b.overdueLimit.Some? then JInteger(b.overdueLimit.value) else Null,
        "tags" := if b.tags.Some? then JStringArray(b.tags.value) else Null,
        "descriptions" := if b.descriptions.Some? then JList(b.descriptions.value) else Null,
        "discounts" := if b.discounts.Some? then JList(b.discounts.value) else Null]
  }


  // Each cast gives back the field that `FieldMap` stored under its key.

  lemma FieldMapPayer(b: Boleto)
    ensures CastLongValue("amount", Lookup(FieldMap(b), "amount")) == Success(b.amount)
    ensures CastString("name", Lookup(FieldMap(b), "name")) == Success(b.name)
    ensures CastString("taxId", Lookup(FieldMap(b), "taxId")) == Success(b.taxId)
    ensures CastString("streetLine1", Lookup(FieldMap(b), "streetLine1")) == Success(b.streetLine1)
  {
  }

  lemma FieldMapAddress(b: Boleto)
    ensures CastString("streetLine2", Lookup(FieldMap(b), "streetLine2")) == Success(b.streetLine2)
    ensures CastString("district", Lookup(FieldMap(b), "district")) == Success(b.district)
    ensures CastString("city", Lookup(FieldMap(b), "city")) == Success(b.city)
    ensures CastString("stateCode", Lookup(FieldMap(b), "stateCode")) == Success(b.stateCode)
  {
  }

  lemma FieldMapCharges(b: Boleto)
    ensures CastString("zipCode", Lookup(FieldMap(b), "zipCode")) == Success(b.zipCode)
    ensures CastString("due", Lookup(FieldMap(b), "due")) == Success(b.due)
    ensures CastDouble("fine", Lookup(FieldMap(b), "fine")) == Success(b.fine)
    ensures CastDouble("interest", Lookup(FieldMap(b), "interest")) == Success(b.interest)
  {
  }

  lemma FieldMapLists(b: Boleto)
    ensures CastInteger("overdueLimit", Lookup(FieldMap(b), "overdueLimit"))
         == Success(b.overdueLimit)
    ensures CastStringArray("tags", Lookup(FieldMap(b), "tags")) == Success(b.tags)
    ensures CastList("descriptions", Lookup(FieldMap(b), "descriptions")) == Success(b.descriptions)
    ensures CastList("discounts", Lookup(FieldMap(b), "discounts")) == Success(b.discounts)
  {
  }

  /** Round trip: the map constructor rebuilds exactly the Boleto the full constructor
      made, as long as the server has not yet filled in its fields. */
  lemma ParseFieldMap(b: Boleto)
    requires b.Unsent()
    ensures Parse(FieldMap(b)) == Success(b)
  {
    var m := FieldMap(b);
    FieldMapPayer(b);
    FieldMapAddress(b);
    FieldMapCharges(b);
    FieldMapLists(b);
    ParseBuilds(m, b);
  }

  // ---------------------------------------------------------------------------------
  // `create(List<?> boletos, Project user)` up to the request

  /** An element of the list handed to `create`, by its run-time class. */
  datatype Item =
    | NullItem                      // a null element
    | HashMapItem(hashMap: HashMap)   // an object whose class is exactly java.util.HashMap
    | BoletoItem(boleto: Boleto)    // an object whose class is exactly Boleto
    | OtherItem(className: string)  // anything else, other Map classes included

  /** The HashMaps the list refers to. */
  function Maps(items: seq<Item>): set<HashMap> {
    set k | 0 <= k < |items| && items[k].HashMapItem? :: items[k].hashMap
  }

  /** What one pass of the loop in `create` adds to the list, or the exception it throws. */
  function Convert(item: Item): (r: Result<Boleto, Exception>)
    reads if item.HashMapItem? then {item.hashMap} else {}
    ensures item.NullItem? ==> r == Failure(NullPointer("boleto"))
    ensures item.OtherItem? ==> r == Failure(UnknownType(item.className))
    ensures item.BoletoItem? ==> r == Success(item.boleto)
    ensures item.HashMapItem? ==> r == Parse(item.hashMap.entries)
  {
    match item
    case NullItem => Failure(NullPointer("boleto"))
    case HashMapItem(m) => Parse(m.entries)
    case BoletoItem(b) => Success(b)
    case OtherItem(c) => Failure(UnknownType(c))
  }

  /** The list `create` posts, or the exception it throws first. */
  function Prepare(items: seq<Item>): Result<seq<Boleto>, Exception>
    reads Maps(items)
  {
    if |items| == 0 then Success([])
    else
      assert Maps(items[..|items| - 1]) <= Maps(items);
      var done :- Prepare(items[..|items| - 1]);
      var b :- Convert(items[|items| - 1]);
      Success(done + [b])
  }

  /** Once an element has thrown, the elements after it are never looked at. */
  lemma {:induction false} PrepareFailurePersists(items: seq<Item>, n: nat)
    requires n <= |items|
    requires Prepare(items[..n]).Failure?
    ensures Prepare(items) == Prepare(items[..n])
    decreases |items| - n
  {
    if n < |items| {
      assert items[..|items| - 1][..n] == items[..n];
      PrepareFailurePersists(items[..|items| - 1], n);
    } else {
      assert items[..n] == items;
    }
  }

  /** `create` gets past its loop exactly when every element converts; the list it
      then posts has one Boleto per element, in the same order: a HashMap element
      becomes what the map constructor builds from it and a Boleto element is kept as
      it is. */
  lemma {:induction false} PrepareSucceeds(items: seq<Item>)
    ensures Prepare(items).Success? <==> forall k :: 0 <= k < |items| ==> Convert(items[k]).Success?
    ensures Prepare(items).Success? ==>
      && |Prepare(items).value| == |items|
      && forall k :: 0 <= k < |items| ==> Prepare(items).value[k] == Convert(items[k]).value
  {
    if |items| > 0 {
      var init := items[..|items| - 1];
      PrepareSucceeds(init);
      assert forall k :: 0 <= k < |init| ==> init[k] == items[k];
    }
  }

  /** `create` throws what its first unconvertible element throws. */
  lemma {:induction false} PrepareFailsAtFirst(items: seq<Item>, n: nat)
    requires n < |items| && Convert(items[n]).Failure?
    requires forall k :: 0 <= k < n ==> Convert(items[k]).Success?
    ensures Prepare(items) == Failure(Convert(items[n]).error)
  {
    var prefix := items[..n];
    PrepareSucceeds(prefix);
    assert forall k :: 0 <= k < n ==> prefix[k] == items[k];
    assert items[..n + 1][..n] == prefix;
    PrepareFailurePersists(items, n + 1);
  }

  /** `create(boletos, user)` up to `Rest.post`: walks the list in order, converting each
      HashMap with the map constructor and keeping each Boleto, and throws on a null
      element or one of any other class. The result is the list that would be posted. */
  method Create(boletos: seq<Item>) returns (r: Result<seq<Boleto>, Exception>)
    ensures r == Prepare(boletos)
  {
    var boletoList: seq<Boleto> := [];
    for i := 0 to |boletos|
      invariant Prepare(boletos[..i]) == Success(boletoList)
    {
      var boleto := boletos[i];
      assert boletos[..i + 1][..i] == boletos[..i];
      var converted: Result<Boleto, Exception>;
      label convert:
      if boleto.NullItem? {
        converted := Failure(NullPointer("boleto"));
      } else if boleto.HashMapItem? {
        converted := FromMap(boleto.hashMap);
      } else if boleto.BoletoItem? {
        converted := Success(boleto.boleto);
      } else {
        converted := Failure(UnknownType(boleto.className));
      }
      // converting allocates the working copy only: the maps already looked at keep their entries
      assert unchanged@convert(Maps(boletos[..i]));
      assert converted == Convert(boletos[..i + 1][i]);
      if converted.Failure? {
        PrepareFailurePersists(boletos, i + 1);
        return Failure(converted.error);
      }
      boletoList := boletoList + [converted.value];
    }
    assert boletos[..|boletos|] == boletos;
    r := Success(boletoList);
  }
}
