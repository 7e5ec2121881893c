/**
 * The manual score input (src/components/DartBoard.tsx): a section button
 * (1 to 20, 25 or 50) and a multiplier button (single, double, triple) set the
 * selection, and "add" emits the points and clears the selection. The bulls are
 * never multiplied. While the board is disabled no button has any effect.
 */
module DartBoardInput {
  import opened Wrappers
  import Dartsio

  /** The section buttons: the twenty numbers and the two bulls. */
  predicate Selectable(section: int) {
    1 <= section <= 20 || section == 25 || section == 50
  }

  predicate IsMultiplier(m: int) {
    m == 1 || m == 2 || m == 3
  }

  /** The point rule of `handleSubmit`: 25 and 50 as they are, any other section times the multiplier. */
  function Points(section: int, multiplier: int): int {
    if section == 25 || section == 50 then section else section * multiplier
  }

  /** What "add" emits: nothing without a selection or while disabled. */
  function Emitted(selected: Option<int>, multiplier: int, disabled: bool): Option<int> {
    if selected.Some? && !disabled then Some(Points(selected.value, multiplier)) else None
  }

  class DartBoard {
    var selectedSection: Option<int>
    var selectedMultiplier: int

    /** Only offered sections and multipliers are ever selected. */
    predicate Valid()
      reads this
    {
      (selectedSection.Some? ==> Selectable(selectedSection.value)) && IsMultiplier(selectedMultiplier)
    }

    constructor()
      ensures Valid() && selectedSection == None && selectedMultiplier == 1
    {
      selectedSection := None;
      selectedMultiplier := 1;
    }

    /** `!disabled && handleSectionClick(section)`: selects, emits nothing. */
    method ClickSection(section: int, disabled: bool)
      requires Valid() && Selectable(section)
      modifies this
      ensures Valid()
      ensures selectedSection == (if disabled then old(selectedSection) else Some(section))
      ensures selectedMultiplier == old(selectedMultiplier)
    {
      if !disabled {
        selectedSection := Some(section);
      }
    }

    /**
     * `!disabled && handleMultiplierClick(m)`: selects, emits nothing. The
     * multiplier buttons are rendered only while a numbered section is selected.
     */
    method ClickMultiplier(m: int, disabled: bool)
      requires Valid() && IsMultiplier(m)
      requires selectedSection.Some? && 1 <= selectedSection.value <= 20
      modifies this
      ensures Valid()
      ensures selectedMultiplier == (if disabled then old(selectedMultiplier) else m)
      ensures selectedSection == old(selectedSection)
    {
      if !disabled {
        selectedMultiplier := m;
      }
    }

    /** `handleSubmit`: emits the points of the selection and clears it, or does nothing. */
    method Submit(disabled: bool) returns (emitted: Option<int>)
      requires Valid()
      modifies this
      ensures Valid()
      ensures emitted == Emitted(old(selectedSection), old(selectedMultiplier), disabled)
      ensures emitted.Some? ==> selectedSection == None && selectedMultiplier == 1
      ensures emitted.None? ==> selectedSection == old(selectedSection) && selectedMultiplier == old(selectedMultiplier)
    {
      emitted := None;
      if selectedSection.Some? && !disabled {
        var section := selectedSection.value;
        var points := if section == 25 || section == 50 then section else section * selectedMultiplier;
        emitted := Some(points);
        selectedSection := None;
        selectedMultiplier := 1;
      }
    }
  }

  // ---------------------------------------------------------------------------
  // Lemmas
  // ---------------------------------------------------------------------------

  /**
   * Every value the board can emit lies between 1 and 60, so a miss (0) is never
   * entered by hand; the bulls ignore the multiplier.
   */
  lemma PointsRange(section: int, multiplier: int)
    requires Selectable(section) && IsMultiplier(multiplier)
    ensures 1 <= Points(section, multiplier) <= 60
    ensures section == 25 || section == 50 ==> Points(section, multiplier) == section
    ensures 1 <= section <= 20 ==> Points(section, multiplier) == section * multiplier
  {
  }

  /** A submit emits exactly when something is selected and the board is enabled, and never emits 0. */
  lemma EmittedFacts(selected: Option<int>, multiplier: int, disabled: bool)
    requires (selected.Some? ==> Selectable(selected.value)) && IsMultiplier(multiplier)
    ensures Emitted(selected, multiplier, disabled).Some? <==> selected.Some? && !disabled
    ensures Emitted(selected, multiplier, disabled).Some? ==> 1 <= Emitted(selected, multiplier, disabled).value <= 60
  {
    if selected.Some? {
      PointsRange(selected.value, multiplier);
    }
  }

  /**
   * The hand-entered points agree with the device decoder: a numbered section
   * scores what the code of the same ring and section decodes to, and a bull
   * what `B25` or `B50` decode to.
   */
  lemma PointsAgreeWithDevice(section: int, multiplier: int)
    requires Selectable(section) && IsMultiplier(multiplier)
    ensures 1 <= section <= 20 ==>
      Dartsio.Parse(Dartsio.Encode(Dartsio.SectorHit(section, multiplier))).Some?
      && Dartsio.Parse(Dartsio.Encode(Dartsio.SectorHit(section, multiplier))).value.points == Points(section, multiplier)
    ensures section == 25 ==> Dartsio.Parse("B25") == Some(Dartsio.OuterBull) && Dartsio.OuterBull.points == Points(section, multiplier)
    ensures section == 50 ==> Dartsio.Parse("B50") == Some(Dartsio.InnerBull) && Dartsio.InnerBull.points == Points(section, multiplier)
  {
    if 1 <= section <= 20 {
      Dartsio.SectorHitFacts(section, multiplier);
      Dartsio.EncodeRoundTrip(Dartsio.SectorHit(section, multiplier));
    } else if section == 25 {
      Dartsio.EncodeRoundTrip(Dartsio.OuterBull);
    } else {
      Dartsio.EncodeRoundTrip(Dartsio.InnerBull);
    }
  }
}
