/**
  One job card: the badge variant and colour chosen from the status, and
  which optional rows the card shows.
*/
module Card {
  import opened Quantum

  /** The badge variant for a status: only a failed job is "destructive". */
  function StatusVariant(s: Status): (r: string)
    ensures r == "destructive" <==> s == Error
    ensures r == "default" <==> s == Running || s == Done
    ensures r == "secondary" <==> s in {Queued, Validating, Initializing, Cancelled}
  {
    match s
    case Queued => "secondary"
    case Running => "default"
    case Done => "default"
    case Error => "destructive"
    case Validating => "secondary"
    case _ => "secondary"
  }

  /** The text colour class for a status. */
  function StatusColor(s: Status): (r: string)
    ensures r == "text-muted-foreground" <==> s == Initializing || s == Cancelled
  {
    match s
    case Queued => "text-quantum-warning"
    case Running => "text-quantum-blue animate-pulse-quantum"
    case Done => "text-quantum-success"
    case Error => "text-quantum-error"
    case Validating => "text-quantum-cyan"
    case _ => "text-muted-foreground"
  }

  /**
    The five listed statuses each get their own colour; the two that fall
    to the default branch share the muted one. The badge is destructive
    exactly when its colour is the error colour.
  */
  lemma StatusColorSpec(s: Status, t: Status)
    ensures s != t && StatusColor(s) == StatusColor(t) ==>
      s in {Initializing, Cancelled} && t in {Initializing, Cancelled}
    ensures StatusVariant(s) == "destructive" <==> StatusColor(s) == "text-quantum-error"
  {
  }

  /**
    What an `{x && <row/>}` slot of the card produces: nothing, the row
    with its value, or, when `x` is a falsy value that React prints, that
    value as bare text.
  */
  datatype Slot<T> = Hidden | Shown(value: T) | StrayText(text: string)

  /**
    `{job.position && ...}` (and the shots and qubits slots) as written:
    an absent field hides the row, but React prints the number 0, so a
    zero field leaves a bare "0" on the card.
  */
  function NumberSlotAsWritten(x: Option<int>): (r: Slot<int>)
    ensures r.StrayText? <==> x == Some(0)
    ensures r.Shown? <==> x.Some? && x.value != 0
  {
    match x
    case None => Hidden
    case Some(n) => if n == 0 then StrayText("0") else Shown(n)
  }

  /** The slot as evidently intended: the row shows only a present, non-zero value. */
  function NumberSlot(x: Option<int>): (r: Slot<int>)
    ensures r.Shown? <==> x.Some? && x.value != 0
    ensures r.Shown? ==> r.value == x.value
    ensures !r.StrayText?
  {
    match x
    case None => Hidden
    case Some(n) => if n == 0 then Hidden else Shown(n)
  }

  /** A job with zero shots shows a stray "0" as written; the corrected slot shows nothing. */
  lemma ZeroShotsLeavesStrayText(job: Job)
    requires job.shots == Some(0)
    ensures NumberSlotAsWritten(job.shots) == StrayText("0")
    ensures NumberSlot(job.shots) == Hidden
  {
  }

  /** The two versions agree on every input except a present zero. */
  lemma NumberSlotDiffersOnlyAtZero(x: Option<int>)
    ensures NumberSlotAsWritten(x) != NumberSlot(x) <==> x == Some(0)
  {
  }

  /** `{job.name && ...}`: an empty string prints nothing, so no stray text is possible. */
  function NameSlot(name: Option<string>): (r: Slot<string>)
    ensures r.Shown? <==> name.Some? && name.value != ""
    ensures r.Shown? ==> r.value == name.value
    ensures !r.StrayText?
  {
    match name
    case None => Hidden
    case Some(s) => if s == "" then Hidden else Shown(s)
  }

  /** `{job.tags && job.tags.length > 0 && ...}`: one badge per tag, in order. */
  function TagsSlot(tags: Option<seq<string>>): (r: Slot<seq<string>>)
    ensures r.Shown? <==> tags.Some? && |tags.value| > 0
    ensures r.Shown? ==> r.value == tags.value
    ensures !r.StrayText?
  {
    match tags
    case None => Hidden
    case Some(ts) => if |ts| > 0 then Shown(ts) else Hidden
  }

  /** What a card shows, apart from layout, icons and the relative creation time. */
  datatype CardView = CardView(
    id: string,
    nameLine: Slot<string>,
    statusText: string,
    variant: string,
    color: string,
    backend: string,
    position: Slot<int>,
    shots: Slot<int>,
    qubits: Slot<int>,
    tags: Slot<seq<string>>)

  function RenderCard(job: Job): (v: CardView)
  {
    CardView(
      job.id,
      NameSlot(job.name),
      StatusName(job.status),
      StatusVariant(job.status),
      StatusColor(job.status),
      job.backend,
      NumberSlot(job.position),
      NumberSlot(job.shots),
      NumberSlot(job.qubits),
      TagsSlot(job.tags))
  }

  /**
    A card always shows the id, the status and the backend; each optional
    row appears exactly when its field is present and truthy, and no card
    carries stray text.
  */
  lemma RenderCardSpec(job: Job)
    ensures var v := RenderCard(job);
      v.id == job.id && v.backend == job.backend && v.statusText == StatusName(job.status)
      && (v.variant == "destructive" <==> job.status == Error)
      && (v.nameLine.Shown? <==> job.name.Some? && job.name.value != "")
      && (v.position.Shown? <==> job.position.Some? && job.position.value != 0)
      && (v.shots.Shown? <==> job.shots.Some? && job.shots.value != 0)
      && (v.qubits.Shown? <==> job.qubits.Some? && job.qubits.value != 0)
      && (v.tags.Shown? <==> job.tags.Some? && |job.tags.value| > 0)
      && !v.position.StrayText? && !v.shots.StrayText? && !v.qubits.StrayText?
  {
  }
}
