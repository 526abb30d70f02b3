/** Validation problems and the error map the quiz editors display: every problem has a
    path into the form and a message, and the map is keyed by the path's parts joined with
    dots (`questions.0.answers.2.text`). */
module FormErrors {

  import opened Text

  /** One step of a path: an object key or an array position. */
  datatype Seg = Key(name: string) | Index(i: nat)

  datatype Issue = Issue(path: seq<Seg>, message: string)

  function SegText(s: Seg): string {
    match s
    case Key(name) => name
    case Index(i) => NatToString(i)
  }

  /** `path.join(".")`. */
  function PathKey(path: seq<Seg>): string {
    Join(seq(|path|, k requires 0 <= k < |path| => SegText(path[k])), ".")
  }

  /** The path of field `field` of round `i`. */
  function RoundPath(i: nat, field: string): seq<Seg> {
    [Key("questions"), Index(i), Key(field)]
  }

  /** The path of the text of answer `j` in round `i`. */
  function AnswerTextPath(i: nat, j: nat): seq<Seg> {
    [Key("questions"), Index(i), Key("answers"), Index(j), Key("text")]
  }

  /** The key under which the editors show a problem with field `field` of round `i`. */
  function RoundKey(i: nat, field: string): string {
    PathKey(RoundPath(i, field))
  }

  /** The key of the text of answer `j` in round `i`. */
  function AnswerTextKey(i: nat, j: nat): string {
    PathKey(AnswerTextPath(i, j))
  }

  /** The map left after writing `errors[key] = message` for every problem in turn. */
  function ErrorMap(issues: seq<Issue>): map<string, string> {
    if issues == [] then map[]
    else
      var last := issues[|issues| - 1];
      ErrorMap(issues[..|issues| - 1])[PathKey(last.path) := last.message]
  }

  /** A key is in the map exactly when some problem has that path. */
  lemma ErrorMapKeys(issues: seq<Issue>)
    ensures forall key :: key in ErrorMap(issues) <==> exists j :: 0 <= j < |issues| && PathKey(issues[j].path) == key
  {
    forall key
      ensures key in ErrorMap(issues) <==> exists j :: 0 <= j < |issues| && PathKey(issues[j].path) == key
    {
      ErrorMapKey(issues, key);
    }
  }

  lemma {:induction false} ErrorMapKey(issues: seq<Issue>, key: string)
    ensures key in ErrorMap(issues) <==> exists j :: 0 <= j < |issues| && PathKey(issues[j].path) == key
  {
    if issues != [] {
      var init := issues[..|issues| - 1];
      ErrorMapKey(init, key);
      if key in ErrorMap(init) {
        var j :| 0 <= j < |init| && PathKey(init[j].path) == key;
        assert issues[j] == init[j];
      }
      if exists j :: 0 <= j < |issues| && PathKey(issues[j].path) == key {
        var j :| 0 <= j < |issues| && PathKey(issues[j].path) == key;
        if j < |init| {
          assert init[j] == issues[j];
        }
      }
    }
  }

  /** The key of a problem that no later problem shares holds that problem's message. */
  lemma {:induction false} ErrorMapLastWins(issues: seq<Issue>, j: nat)
    requires j < |issues| && LastWithKey(issues, j)
    ensures PathKey(issues[j].path) in ErrorMap(issues)
    ensures ErrorMap(issues)[PathKey(issues[j].path)] == issues[j].message
    decreases |issues|
  {
    var init := issues[..|issues| - 1];
    if j < |init| {
      assert init[j] == issues[j];
      forall l | j < l < |init| ensures PathKey(init[l].path) != PathKey(init[j].path) {
        assert init[l] == issues[l];
      }
      ErrorMapLastWins(init, j);
    }
  }

  /** No later problem has the same key as problem `j`. */
  predicate LastWithKey(issues: seq<Issue>, j: nat)
    requires j < |issues|
  {
    forall l :: j < l < |issues| ==> PathKey(issues[l].path) != PathKey(issues[j].path)
  }

  /** Adding problems never takes a key away: the map is empty exactly when there are no
      problems. */
  lemma ErrorMapEmptyIff(issues: seq<Issue>)
    ensures ErrorMap(issues) == map[] <==> issues == []
  {
    if issues != [] {
      var last := issues[|issues| - 1];
      assert PathKey(last.path) in ErrorMap(issues);
    }
  }

  /** Writing one more problem into the map. */
  lemma ErrorMapSnoc(issues: seq<Issue>, x: Issue)
    ensures ErrorMap(issues + [x]) == ErrorMap(issues)[PathKey(x.path) := x.message]
  {
    assert (issues + [x])[..|issues|] == issues;
  }

  /** The `issues.forEach` loop that writes every problem into a fresh error map. */
  method CollectErrors(issues: seq<Issue>) returns (errors: map<string, string>)
    ensures errors == ErrorMap(issues)
  {
    errors := map[];
    for k := 0 to |issues|
      invariant errors == ErrorMap(issues[..k])
    {
      assert issues[..k + 1][..k] == issues[..k];
      errors := errors[PathKey(issues[k].path) := issues[k].message];
    }
    assert issues[..|issues|] == issues;
  }

  /** `if (formErrors[key]) delete ...`: a shown (non-empty) error under `key` is removed;
      every other entry stays. */
  function ClearError(errors: map<string, string>, key: string): (r: map<string, string>)
    ensures key in r ==> r[key] == "" && key in errors && errors[key] == ""
    ensures forall k :: k != key ==> (k in r <==> k in errors) && (k in r ==> r[k] == errors[k])
  {
    if key in errors && errors[key] != "" then errors - {key} else errors
  }
}
