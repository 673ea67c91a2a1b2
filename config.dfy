/** The non-interactive check of `get_client`: which credentials are missing. */
module Config {

  /** The environment variables `get_client` reads, in the order it checks them. */
  const VariableNames: seq<string> := ["JIRA_BASE_URL", "JIRA_USER_EMAIL", "JIRA_API_TOKEN"]

  /** The names of the variables whose value is empty, in the order above. */
  function MissingVariables(baseUrl: string, userEmail: string, apiToken: string): (missing: seq<string>)
    ensures |missing| <= 3
  {
    (if baseUrl == "" then [VariableNames[0]] else [])
    + (if userEmail == "" then [VariableNames[1]] else [])
    + (if apiToken == "" then [VariableNames[2]] else [])
  }

  /**
   * A name is reported exactly when its value is empty, and nothing is
   * reported when all three are set, which is the only case in which a
   * client is built.
   */
  lemma MissingVariablesSpec(baseUrl: string, userEmail: string, apiToken: string)
    ensures var missing := MissingVariables(baseUrl, userEmail, apiToken);
      && ("JIRA_BASE_URL" in missing <==> baseUrl == "")
      && ("JIRA_USER_EMAIL" in missing <==> userEmail == "")
      && ("JIRA_API_TOKEN" in missing <==> apiToken == "")
      && (missing == [] <==> baseUrl != "" && userEmail != "" && apiToken != "")
  {
  }

  /** The position of a name in `VariableNames`, or -1. */
  function IndexOf(name: string): (k: int)
    ensures -1 <= k < |VariableNames|
    ensures k >= 0 ==> VariableNames[k] == name
  {
    if name == VariableNames[0] then 0
    else if name == VariableNames[1] then 1
    else if name == VariableNames[2] then 2
    else -1
  }

  /** Each variable name sits at its own position. */
  lemma IndexOfNames()
    ensures forall k :: 0 <= k < |VariableNames| ==> IndexOf(VariableNames[k]) == k
  {
    assert VariableNames[1] != VariableNames[0];
    assert VariableNames[2] != VariableNames[0] && VariableNames[2] != VariableNames[1];
  }

  /** The reported names keep the order in which `VariableNames` lists them. */
  lemma MissingVariablesOrdered(baseUrl: string, userEmail: string, apiToken: string)
    ensures var missing := MissingVariables(baseUrl, userEmail, apiToken);
      forall i, j :: 0 <= i < j < |missing| ==> 0 <= IndexOf(missing[i]) < IndexOf(missing[j])
  {
    var missing := MissingVariables(baseUrl, userEmail, apiToken);
    var names := VariableNames;
    IndexOfNames();
    if baseUrl == "" && userEmail == "" && apiToken == "" {
      assert missing == [names[0], names[1], names[2]];
    } else if baseUrl == "" && userEmail == "" {
      assert missing == [names[0], names[1]];
    } else if baseUrl == "" && apiToken == "" {
      assert missing == [names[0], names[2]];
    } else if userEmail == "" && apiToken == "" {
      assert missing == [names[1], names[2]];
    } else {
      assert |missing| <= 1;
    }
  }
}
