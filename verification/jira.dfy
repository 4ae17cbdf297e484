/** The two pure pieces of the tracker client (asker/jira.go): choosing the
    project components a ticket request names, and building a ticket's
    browser URL. */
module Jira {
  import opened Results
  import opened Text

  /** The client's two base URLs; the API client itself is not modelled. */
  datatype JiraClient = JiraClient(endpoint: string, publicEndpoint: string)

  /** A component as the project lists it. */
  datatype ProjectComponent = ProjectComponent(ID: string, Name: string)

  /** A component reference attached to a new issue. */
  datatype Component = Component(ID: string, Name: string)

  /** Component names are compared after lower-casing both sides. */
  predicate NameMatches(componentName: string, requested: string) {
    ToLower(componentName) == ToLower(requested)
  }

  function CopyOf(pc: ProjectComponent): Component {
    Component(pc.ID, pc.Name)
  }

  /** The copies of the project components that match one requested name, in
      project order. */
  function MatchesFor(requested: string, project: seq<ProjectComponent>): (r: seq<Component>)
    ensures |r| <= |project|
    decreases |project|
  {
    if project == [] then []
    else
      var last := project[|project| - 1];
      MatchesFor(requested, project[..|project| - 1])
        + (if NameMatches(last.Name, requested) then [CopyOf(last)] else [])
  }

  /** For each requested name in request order, the matching components in
      project order. */
  function ComponentsFor(requested: seq<string>, project: seq<ProjectComponent>): (r: seq<Component>)
    ensures requested == [] || project == [] ==> r == []
    decreases |requested|
  {
    if requested == [] then []
    else ComponentsFor(requested[..|requested| - 1], project) + MatchesFor(requested[|requested| - 1], project)
  }

  /** The nested loop of `getComponentsForRequest`; it never fails. */
  method GetComponentsForRequest(project: seq<ProjectComponent>, requested: seq<string>)
    returns (components: seq<Component>, err: Option<string>)
    ensures components == ComponentsFor(requested, project)
    ensures err == None
  {
    components := [];
    var i := 0;
    while i < |requested|
      invariant 0 <= i <= |requested|
      invariant components == ComponentsFor(requested[..i], project)
    {
      var compName := requested[i];
      var k := 0;
      while k < |project|
        invariant 0 <= k <= |project|
        invariant components == ComponentsFor(requested[..i], project) + MatchesFor(compName, project[..k])
      {
        var pc := project[k];
        if ToLower(pc.Name) == ToLower(compName) {
          components := components + [Component(pc.ID, pc.Name)];
        }
        assert project[..k + 1][..k] == project[..k];
        k := k + 1;
      }
      assert project[..k] == project;
      assert requested[..i + 1][..i] == requested[..i];
      i := i + 1;
    }
    assert requested[..i] == requested;
    return components, None;
  }

  // ---------------------------------------------------------------------------
  // Properties of the component selection

  /** Every match is the copy of a project component whose name matches. */
  lemma {:induction false} MatchesForSound(requested: string, project: seq<ProjectComponent>)
    ensures forall c :: c in MatchesFor(requested, project) ==>
      exists pc :: pc in project && NameMatches(pc.Name, requested) && c == CopyOf(pc)
    decreases |project|
  {
    if project != [] {
      var init := project[..|project| - 1];
      MatchesForSound(requested, init);
      assert forall pc :: pc in init ==> pc in project;
    }
  }

  /** Every project component whose name matches is copied into the matches. */
  lemma {:induction false} MatchesForComplete(requested: string, project: seq<ProjectComponent>)
    ensures forall pc :: pc in project && NameMatches(pc.Name, requested) ==> CopyOf(pc) in MatchesFor(requested, project)
    decreases |project|
  {
    if project != [] {
      var init := project[..|project| - 1];
      MatchesForComplete(requested, init);
      assert project == init + [project[|project| - 1]];
    }
  }

  /** A name no project component matches contributes nothing. */
  lemma {:induction false} NoMatchNoComponents(requested: string, project: seq<ProjectComponent>)
    requires forall pc :: pc in project ==> !NameMatches(pc.Name, requested)
    ensures MatchesFor(requested, project) == []
    decreases |project|
  {
    if project != [] {
      var init := project[..|project| - 1];
      assert forall pc :: pc in init ==> pc in project;
      NoMatchNoComponents(requested, init);
    }
  }

  /** Names that differ only in letter case select the same components. */
  lemma {:induction false} MatchesForCaseInsensitive(a: string, b: string, project: seq<ProjectComponent>)
    requires ToLower(a) == ToLower(b)
    ensures MatchesFor(a, project) == MatchesFor(b, project)
    decreases |project|
  {
    if project != [] {
      MatchesForCaseInsensitive(a, b, project[..|project| - 1]);
    }
  }

  /** The selection for a concatenation of requests is the concatenation of
      the selections, so each request contributes independently and in order. */
  lemma {:induction false} ComponentsForAppend(r1: seq<string>, r2: seq<string>, project: seq<ProjectComponent>)
    ensures ComponentsFor(r1 + r2, project) == ComponentsFor(r1, project) + ComponentsFor(r2, project)
    decreases |r2|
  {
    if r2 != [] {
      var init := r2[..|r2| - 1];
      ComponentsForAppend(r1, init, project);
      assert (r1 + r2)[..|r1 + r2| - 1] == r1 + init;
    } else {
      assert r1 + r2 == r1;
    }
  }

  /** Each requested name selects at most every project component once. */
  lemma {:induction false} ComponentsForBound(requested: seq<string>, project: seq<ProjectComponent>)
    ensures |ComponentsFor(requested, project)| <= |requested| * |project|
    decreases |requested|
  {
    if requested != [] {
      var init := requested[..|requested| - 1];
      ComponentsForBound(init, project);
      var n, p := |init|, |project|;
      assert n * p + p == (n + 1) * p;
    }
  }

  /** The selection for a single request is that request's matches; with the
      previous lemma, a repeated request yields its matches twice. */
  lemma ComponentsForSingle(requested: string, project: seq<ProjectComponent>)
    ensures ComponentsFor([requested], project) == MatchesFor(requested, project)
  {
    assert [requested][..0] == [];
  }

  /** Every selected component is the copy of a project component that
      matches one of the requested names. */
  lemma {:induction false} ComponentsForSound(requested: seq<string>, project: seq<ProjectComponent>)
    ensures forall c :: c in ComponentsFor(requested, project) ==>
      exists pc, n :: pc in project && n in requested && NameMatches(pc.Name, n) && c == CopyOf(pc)
    decreases |requested|
  {
    if requested != [] {
      var init := requested[..|requested| - 1];
      var last := requested[|requested| - 1];
      ComponentsForSound(init, project);
      MatchesForSound(last, project);
      assert forall n :: n in init ==> n in requested;
      assert last in requested;
    }
  }

  /** Every project component matching some requested name is selected. */
  lemma {:induction false} ComponentsForComplete(requested: seq<string>, project: seq<ProjectComponent>)
    ensures forall pc, n :: pc in project && n in requested && NameMatches(pc.Name, n) ==>
      CopyOf(pc) in ComponentsFor(requested, project)
    decreases |requested|
  {
    if requested != [] {
      var init := requested[..|requested| - 1];
      var last := requested[|requested| - 1];
      ComponentsForComplete(init, project);
      MatchesForComplete(last, project);
      assert requested == init + [last];
    }
  }

  // ---------------------------------------------------------------------------
  // Ticket URLs

  /** The public endpoint when one is configured, otherwise the API endpoint. */
  function BrowseBase(j: JiraClient): string {
    if j.publicEndpoint != "" then j.publicEndpoint else j.endpoint
  }

  /** `<base>/browse/<key>`. */
  function GetTicketURL(j: JiraClient, key: string): (url: string)
    ensures HasPrefix(url, BrowseBase(j))
    ensures |url| == |BrowseBase(j)| + |"/browse/"| + |key|
    ensures url[|BrowseBase(j)|..] == "/browse/" + key
  {
    var base := if j.publicEndpoint != "" then j.publicEndpoint else j.endpoint;
    base + "/browse/" + key
  }

  /** The issue key is the URL's tail, so distinct keys give distinct URLs. */
  lemma TicketURLKey(j: JiraClient, key: string)
    ensures GetTicketURL(j, key)[|GetTicketURL(j, key)| - |key|..] == key
  {
    var url := GetTicketURL(j, key);
    var tail := url[|BrowseBase(j)|..];
    assert tail[|"/browse/"|..] == key;
    assert url[|url| - |key|..] == tail[|"/browse/"|..];
  }

  lemma TicketURLInjective(j: JiraClient, k1: string, k2: string)
    requires GetTicketURL(j, k1) == GetTicketURL(j, k2)
    ensures k1 == k2
  {
    TicketURLKey(j, k1);
    TicketURLKey(j, k2);
  }
}
