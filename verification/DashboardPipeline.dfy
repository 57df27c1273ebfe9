/** The rendering pipeline of one dashboard: decide by hash whether anything is to do, fill in the datasource
    inputs, and validate the result. How the text was obtained, and which texts are JSON, are parameters. */
module DashboardPipeline {
  import opened Wrappers
  import opened DashboardSync
  import opened DatasourceInputs

  class Pipeline {
    const dashboardHash: string
    const specJson: string
    const rules: seq<Rule>
    var json: string
    var hash: string

    constructor (dashboardHash: string, specJson: string, rules: seq<Rule>)
      ensures this.dashboardHash == dashboardHash && this.specJson == specJson && this.rules == rules
      ensures json == "" && hash == ""
    {
      this.dashboardHash, this.specJson, this.rules := dashboardHash, specJson, rules;
      json, hash := "", "";
    }

    /** Applies the rules to the text, or leaves it alone when a rule is invalid. */
    method ResolveDatasources() returns (ok: bool)
      modifies this`json
      ensures ok <==> Sequential(old(json), rules).Success?
      ensures ok <==> forall r :: r in rules ==> r.input != "" && r.datasource != ""
      ensures json == if ok then Sequential(old(json), rules).value else old(json)
      ensures ok && WellFormed(old(json)) && Named(rules) && Fenced(rules) && LeftAlone(rules) ==> json == Simultaneous(old(json), rules)
    {
      SequentialFails(json, rules);
      if WellFormed(json) && Named(rules) && Fenced(rules) && LeftAlone(rules) {
        SequentialIsSimultaneous(json, rules);
      }
      if |rules| == 0 {
        return true;
      }
      var currentJson := json;
      for i := 0 to |rules|
        invariant json == old(json)
        invariant Sequential(currentJson, rules[i..]) == Sequential(json, rules)
      {
        var input := rules[i];
        assert rules[i..][0] == input && rules[i..][1..] == rules[i + 1..];
        if input.datasource == "" || input.input == "" {
          assert !ValidRule(input) && input in rules;
          return false;
        }
        var searchValue := "${" + input.input + "}";
        currentJson := ReplaceAll(currentJson, searchValue, input.datasource);
      }
      assert rules[|rules|..] == [];
      json := currentJson;
      return true;
    }

    /** What `validateJson` parses: the resolved text, or the text of the resource when that is empty. */
    function Candidate(text: string): string {
      if text != "" then text else specJson
    }

    /** The text resolves and the result is JSON. */
    ghost predicate Renders(text: string, isJson: string -> bool) {
      var resolved := Sequential(text, rules);
      resolved.Success? && isJson(Candidate(resolved.value))
    }

    /** `obtained` is the text of the dashboard, if it could be obtained. The hash is recorded as soon as it is
        known to differ, before the text is resolved. */
    method ProcessDashboard(knownHash: string, forceRecreate: bool, obtained: Option<string>, isJson: string -> bool)
      returns (processed: Processed)
      modifies this
      ensures processed ==
        DashboardSync.Pipeline(dashboardHash, knownHash, forceRecreate, obtained.Some?, obtained.Some? && Renders(obtained.value, isJson))
      ensures hash == if obtained.Some? then dashboardHash else old(hash)
      ensures processed.Unchanged? <==> obtained.Some? && dashboardHash == knownHash && !forceRecreate
      ensures processed.Unchanged? ==> json == obtained.value
      ensures processed.Rendered? ==> json == Sequential(obtained.value, rules).value && isJson(if json != "" then json else specJson)
      ensures processed.Broken? && obtained.Some? && (forall r :: r in rules ==> r.input != "" && r.datasource != "") ==>
        !isJson(if json != "" then json else specJson)
    {
      if obtained.None? {
        return Broken;
      }
      json := obtained.value;
      if dashboardHash == knownHash && !forceRecreate {
        hash := knownHash;
        return Unchanged;
      }
      hash := dashboardHash;
      SequentialFails(json, rules);
      var resolved := ResolveDatasources();
      if !resolved {
        return Broken;
      }
      if !isJson(Candidate(json)) {
        return Broken;
      }
      return Rendered;
    }
  }
}
