// The export dialog of client/src/components/ExportModal.tsx: its four
// state variables, the simulated progress timer, the success and failure
// paths of `handleExport`, and the panel each state shows. The timer's and
// the export's events are methods the environment calls in some order.
module ExportModal {
  datatype Format = Pdf | Docx

  /** The three bodies of the dialog. */
  datatype Panel = Selection | Progressing | Complete

  /** The conditions at lines 76, 122 and 132 of the component. */
  predicate ShowsSelection(isExporting: bool, isComplete: bool) { !isExporting && !isComplete }
  predicate ShowsProgress(isExporting: bool, isComplete: bool) { isExporting && !isComplete }
  predicate ShowsComplete(isComplete: bool) { isComplete }

  /** Whatever the two flags hold, exactly one panel shows. */
  function PanelOf(isExporting: bool, isComplete: bool): (p: Panel)
    ensures p == Selection <==> ShowsSelection(isExporting, isComplete)
    ensures p == Progressing <==> ShowsProgress(isExporting, isComplete)
    ensures p == Complete <==> ShowsComplete(isComplete)
  {
    if isComplete then Complete else if isExporting then Progressing else Selection
  }

  /** The interval's updater: ten more below 90, otherwise held at 90. */
  function NextProgress(prev: int): int
  {
    if prev >= 90 then 90 else prev + 10
  }

  /** `n` ticks of the timer from `p`. */
  function Ticked(p: int, n: nat): int
    decreases n
  {
    if n == 0 then p else NextProgress(Ticked(p, n - 1))
  }

  /** From zero, `n` ticks give ten per tick up to 90, and no more. */
  lemma {:induction false} TicksFromZero(n: nat)
    ensures Ticked(0, n) == if n < 9 then 10 * n else 90
    decreases n
  {
    if n > 0 {
      TicksFromZero(n - 1);
    }
  }

  /** Ticking keeps the progress a multiple of ten between 0 and 90. */
  lemma {:induction false} TicksStayInRange(p: int, n: nat)
    requires 0 <= p <= 90 && p % 10 == 0
    ensures var q := Ticked(p, n);
      0 <= q <= 90 && q % 10 == 0 && q >= p
    decreases n
  {
    if n > 0 {
      TicksStayInRange(p, n - 1);
    }
  }

  class Dialog {
    var open: bool
    var format: Format
    var isExporting: bool
    var progress: int
    var isComplete: bool
    /** The progress interval is running. */
    var ticking: bool
    /** The two-second close timeout has been scheduled. */
    var closing: bool

    /** The states the dialog can be in: progress is a multiple of ten,
        at most 90 until completion and 100 exactly at completion; it is 0,
        and nothing is complete, while no export runs; the timer runs only
        during an incomplete export, and the close is scheduled only after
        completion. */
    ghost predicate Valid()
      reads this
    {
      && 0 <= progress <= 100 && progress % 10 == 0
      && (isComplete <==> progress == 100)
      && (isComplete ==> isExporting)
      && (!isExporting ==> progress == 0)
      && (ticking ==> isExporting && !isComplete)
      && (closing ==> isComplete && !ticking)
    }

    function Shown(): (p: Panel)
      reads this
    {
      PanelOf(isExporting, isComplete)
    }

    constructor (open: bool)
      ensures Valid() && this.open == open && format == Pdf
      ensures !isExporting && progress == 0 && !isComplete && !ticking && !closing
      ensures Shown() == Selection
    {
      this.open := open;
      format := Pdf;
      isExporting := false;
      progress := 0;
      isComplete := false;
      ticking := false;
      closing := false;
    }

    /** The radio group's `setFormat`. */
    method ChooseFormat(f: Format)
      modifies this`format
      ensures format == f
    {
      format := f;
    }

    /** The start of `handleExport`: reset the progress, show the progress
        panel, start the timer, and hand the chosen format to `onExport`. */
    method Start() returns (requested: Format)
      requires Valid()
      modifies this
      ensures Valid()
      ensures isExporting && progress == 0 && !isComplete && ticking && !closing
      ensures open == old(open) && format == old(format) && requested == format
      ensures Shown() == Progressing
    {
      isExporting := true;
      progress := 0;
      isComplete := false;
      ticking := true;
      closing := false;
      requested := format;
    }

    /** One firing of the interval: the updater runs, and stops the timer
        once progress has reached 90. */
    method Tick()
      requires Valid()
      modifies this`progress, this`ticking
      ensures Valid()
      ensures old(ticking) ==> progress == NextProgress(old(progress))
      ensures old(ticking) ==> (ticking <==> old(progress) < 90)
      ensures !old(ticking) ==> progress == old(progress) && !ticking
      ensures Shown() == old(Shown())
    {
      if ticking {
        if progress >= 90 {
          ticking := false;
          progress := 90;
        } else {
          progress := progress + 10;
        }
      }
    }

    /** `onExport` resolved: stop the timer, fill the bar, show the
        completion panel and schedule the close. */
    method Succeed()
      requires Valid() && isExporting && !isComplete
      modifies this`progress, this`isComplete, this`ticking, this`closing
      ensures Valid()
      ensures progress == 100 && isComplete && !ticking && closing && isExporting
      ensures Shown() == Complete
    {
      ticking := false;
      progress := 100;
      isComplete := true;
      closing := true;
    }

    /** The close timeout: the dialog closes and the three fields reset. */
    method CloseTimeout()
      requires Valid() && closing
      modifies this
      ensures Valid()
      ensures !open && !isExporting && progress == 0 && !isComplete && !ticking && !closing
      ensures format == old(format)
      ensures Shown() == Selection
    {
      open := false;
      isExporting := false;
      progress := 0;
      isComplete := false;
      closing := false;
    }

    /** `onExport` rejected: stop the timer and return to the selection
        panel; `isComplete` is left as it was, which is false. */
    method Fail()
      requires Valid() && isExporting && !isComplete
      modifies this`isExporting, this`progress, this`ticking
      ensures Valid()
      ensures !isExporting && progress == 0 && !ticking && isComplete == old(isComplete) && !isComplete
      ensures Shown() == Selection
    {
      ticking := false;
      isExporting := false;
      progress := 0;
    }
  }

  /** A run of the timer from the start of an export, as the dialog's state
      after `n` ticks: ten per tick up to 90, the progress panel throughout. */
  method RunTicks(d: Dialog, n: nat)
    requires d.Valid() && d.isExporting && d.progress == 0 && d.ticking
    modifies d
    ensures d.Valid() && d.isExporting && !d.isComplete
    ensures d.progress == Ticked(0, n) && d.progress == (if n < 9 then 10 * n else 90)
    ensures d.Shown() == Progressing
  {
    for i := 0 to n
      invariant d.Valid() && d.isExporting && !d.isComplete
      invariant d.progress == Ticked(0, i)
      invariant d.ticking <==> i < 10
    {
      TicksFromZero(i);
      d.Tick();
    }
    TicksFromZero(n);
  }
}
