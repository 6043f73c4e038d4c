/** The manual-entry form of the scan page, src/app/dashboard/scan/page.tsx:
    at least one of four fields must be filled in; the query for the results
    page holds exactly the filled-in fields, in a fixed key order. */
module ManualEntry {
  import opened Common

  datatype ManualForm = ManualForm(drugName: string, ndc: string, gtin: string, nafdacNumber: string)

  /** An alert and no navigation, or navigation to a target URL. */
  datatype SubmitOutcome = Rejected(alert: string) | Navigate(target: string)

  type Param = (string, string)

  const EmptyFormAlert := "Please fill in at least one field."
  const ResultsPath := "/dashboard/results?"

  /** The submission goes ahead when some field is not empty. */
  predicate AnyFieldFilled(form: ManualForm)
  {
    form.drugName != "" || form.ndc != "" || form.gtin != "" || form.nafdacNumber != ""
  }

  /** The four fields under their query keys, in the order the page sets them. */
  function Fields(form: ManualForm): seq<Param>
  {
    [("drugName", form.drugName), ("ndc", form.ndc), ("gtin", form.gtin), ("nafdacNumber", form.nafdacNumber)]
  }

  predicate Filled(p: Param)
  {
    p.1 != ""
  }

  /** The query the page means to build: the filled-in fields, in order. */
  function Query(form: ManualForm): seq<Param>
  {
    Filter(Fields(form), Filled)
  }

  predicate HasKey(params: seq<Param>, key: string)
  {
    exists i :: 0 <= i < |params| && params[i].0 == key
  }

  /** Every entry except those under `key`. */
  function WithoutKey(params: seq<Param>, key: string): (r: seq<Param>)
    ensures !HasKey(r, key)
    ensures |r| <= |params|
  {
    if params == [] then []
    else if params[0].0 == key then WithoutKey(params[1..], key)
    else [params[0]] + WithoutKey(params[1..], key)
  }

  /** `URLSearchParams.set`: the first entry under `key` takes the value and
      later ones are removed; without such an entry one is appended. */
  function SetParam(params: seq<Param>, key: string, value: string): (r: seq<Param>)
    ensures !HasKey(params, key) ==> r == params + [(key, value)]
    ensures HasKey(params, key) ==> |r| <= |params|
    decreases |params|
  {
    if params == [] then [(key, value)]
    else if params[0].0 == key then [(key, value)] + WithoutKey(params[1..], key)
    else
      assert HasKey(params, key) <==> HasKey(params[1..], key) by {
        assert forall i :: 1 <= i < |params| ==> params[i] == params[1..][i - 1];
        if HasKey(params[1..], key) {
          var i :| 0 <= i < |params[1..]| && params[1..][i].0 == key;
          assert params[i + 1].0 == key;
        }
      }
      [params[0]] + SetParam(params[1..], key, value)
  }

  /** `params.toString()` without percent-encoding: `key=value` pairs
      joined by `&`. */
  function QueryString(params: seq<Param>): string
  {
    if params == [] then ""
    else if |params| == 1 then params[0].0 + "=" + params[0].1
    else params[0].0 + "=" + params[0].1 + "&" + QueryString(params[1..])
  }

  /** `handleManualSubmit`: reject an all-empty form, otherwise set each
      filled-in field on a fresh parameter list and navigate to the
      results page with it. */
  method HandleManualSubmit(form: ManualForm) returns (outcome: SubmitOutcome)
    ensures outcome.Rejected? <==> !AnyFieldFilled(form)
    ensures outcome.Rejected? ==> outcome.alert == EmptyFormAlert
    ensures outcome.Navigate? ==> outcome.target == ResultsPath + QueryString(Query(form))
  {
    if form.drugName == "" && form.ndc == "" && form.gtin == "" && form.nafdacNumber == "" {
      return Rejected(EmptyFormAlert);
    }
    var params: seq<Param> := [];
    params := SetField(params, ("drugName", form.drugName));
    params := SetField(params, ("ndc", form.ndc));
    params := SetField(params, ("gtin", form.gtin));
    params := SetField(params, ("nafdacNumber", form.nafdacNumber));
    SetEachFieldBuildsQuery(form);
    outcome := Navigate(ResultsPath + QueryString(params));
  }

  /** `if (value) params.set(key, value)`, as a function of the list. */
  function SetField(params: seq<Param>, p: Param): (r: seq<Param>)
    ensures !Filled(p) ==> r == params
    ensures Filled(p) && !HasKey(params, p.0) ==> r == params + [p]
  {
    if Filled(p) then SetParam(params, p.0, p.1) else params
  }

  /** Setting the next field, when it is filled in, extends the query built
      from the fields before it, since no earlier field has its key. */
  lemma SetNextField(done: seq<Param>, next: Param, params: seq<Param>)
    requires forall i :: 0 <= i < |done| ==> done[i].0 != next.0
    requires params == Filter(done, Filled)
    ensures SetField(params, next) == Filter(done + [next], Filled)
  {
    assert !HasKey(params, next.0) by {
      forall j | 0 <= j < |params| ensures params[j].0 != next.0 {
        assert params[j] in done;
      }
    }
    FilterConcat(done, [next], Filled);
    assert Filter([next], Filled) == if Filled(next) then [next] else [] by {
      assert [next][1..] == [];
    }
  }

  /** The four guarded `set` calls, in the page's order, build exactly the
      filled-in fields in that order. */
  lemma {:induction false} SetEachFieldBuildsQuery(form: ManualForm)
    ensures SetField(SetField(SetField(SetField([], ("drugName", form.drugName)), ("ndc", form.ndc)),
                              ("gtin", form.gtin)), ("nafdacNumber", form.nafdacNumber)) == Query(form)
  {
    var fs := Fields(form);
    var p1 := SetField([], fs[0]);
    SetNextField([], fs[0], []);
    assert [] + [fs[0]] == fs[..1];
    var p2 := SetField(p1, fs[1]);
    SetNextField(fs[..1], fs[1], p1);
    assert fs[..1] + [fs[1]] == fs[..2];
    var p3 := SetField(p2, fs[2]);
    SetNextField(fs[..2], fs[2], p2);
    assert fs[..2] + [fs[2]] == fs[..3];
    SetNextField(fs[..3], fs[3], p3);
    assert fs[..3] + [fs[3]] == fs;
  }

  /** The query is empty exactly when the form would be rejected. */
  lemma {:induction false} QueryEmptyIffRejected(form: ManualForm)
    ensures Query(form) == [] <==> !AnyFieldFilled(form)
  {
    var fields := Fields(form);
    if form.drugName != "" {
      assert Filled(fields[0]);
    } else if form.ndc != "" {
      assert Filled(fields[1]);
    } else if form.gtin != "" {
      assert Filled(fields[2]);
    } else if form.nafdacNumber != "" {
      assert Filled(fields[3]);
    } else {
      NothingFilledEmptyQuery(form);
    }
  }

  lemma NothingFilledEmptyQuery(form: ManualForm)
    requires !AnyFieldFilled(form)
    ensures Query(form) == []
  {
    FilterDropsAll(Fields(form), Filled);
  }

  /** A filled-in field appears in the query under its key with its value
      unchanged; an empty one does not appear at all. */
  lemma {:induction false} QueryHoldsFilledFields(form: ManualForm, i: nat)
    requires i < 4
    ensures Fields(form)[i].1 != "" ==> Fields(form)[i] in Query(form)
    ensures Fields(form)[i].1 == "" ==> forall j :: 0 <= j < |Query(form)| ==> Query(form)[j].0 != Fields(form)[i].0
  {
    var fields := Fields(form);
    if fields[i].1 == "" {
      forall j | 0 <= j < |Query(form)| ensures Query(form)[j].0 != fields[i].0 {
        var p := Query(form)[j];
        assert p in fields && p.1 != "";
      }
    }
  }

  /** The query's keys follow the order drugName, ndc, gtin, nafdacNumber. */
  lemma QueryKeepsKeyOrder(form: ManualForm)
    ensures SubsequenceOf(Query(form), Fields(form))
  {
    FilterIsSubsequence(Fields(form), Filled);
  }
}
