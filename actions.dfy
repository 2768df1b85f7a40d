/** The operator's choices (`enum ACTIONS`, index.ts:214-222). The prompts
    return the label of the chosen entry and the session compares labels,
    so the labels must tell the choices apart. */
module Actions {

  datatype Action = Record | Ignore | Previous | Reload | Good | Retake | Skip

  function Label(a: Action): string {
    match a
    case Record => "Record"
    case Ignore => "Ignore"
    case Previous => "Back"
    case Reload => "Reload script"
    case Good => "\U{2714}\U{FE0E} Good (Save & continue)"
    case Retake => "\U{1F5D1} Retake (Delete take & start over)"
    case Skip => "\U{23F9} Cancel (Delete & continue)"
  }

  /** No two choices share a label, so comparing labels is comparing
      choices. */
  lemma LabelInjective(a: Action, b: Action)
    requires Label(a) == Label(b)
    ensures a == b
  {
    var la, lb := Label(a), Label(b);
    assert |la| == |lb| && la[0] == lb[0];
    if |la| == 6 {
      assert la[1] == lb[1];
    }
  }
}
