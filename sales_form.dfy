/** The entry form (src/components/SalesForm.tsx): its field state, the record a submit builds,
    loading an entry for editing, and the handlers that recompute commission and FDI figures.
    The commission and FDI rules and the two-argument daily VPG come from src/types/sales, which
    is not part of this model: they are parameters, as are the JavaScript number parser and
    number formatter. */
module SalesForm {
  import opened Wrappers
  import opened Calendar
  import opened SalesTypes
  import opened Aggregation
  import opened Database

  /** The form's fields; amounts being typed are kept as text. */
  datatype FormData = FormData(
    date: CalendarDate,
    clientLastName: string,
    leadNumber: string,
    numberOfTours: int,
    managerName: string,
    saleAmount: string,
    commissionPercentage: string,
    commissionAmount: string,
    fdi: string,
    fdiPoints: real,
    fdiGivenPoints: real,
    fdiCost: real,
    notes: string,
    saleType: SaleType,
    isCancelled: bool,
    pointsInfo: PointsInfo)

  /** The helpers imported from src/types/sales, left uninterpreted. */
  datatype SalesHelpers = SalesHelpers(
    calculateTotalCommission: (real, real, SaleType, Option<seq<CommissionLevel>>) -> real,
    calculateFDIPoints: real -> real,
    calculateFDICost: (real, real) -> real,
    calculateDailyVPG: (real, int) -> real)

  /** `parseFloat` (None for NaN) and `Number.prototype.toString`. */
  datatype JsNumbers = JsNumbers(parseFloat: string -> Option<real>, numberToString: real -> string)

  /** `initialFormData`, with the clock's date made a parameter. */
  function InitialFormData(today: CalendarDate): FormData {
    FormData(today, "", "", 0, "Lisa", "", "", "", "", 0.0, 0.0, 0.0, "", Deed, false, PointsInfo(0.0, 0.0))
  }

  /** `parseFloat(text) || 0`: NaN (and 0) become 0. */
  function ParseOrZero(js: JsNumbers, text: string): real {
    OrZero(js.parseFloat(text))
  }

  /** `currentProject?.id || 1`: no project, or the falsy key 0, gives 1. */
  function ProjectIdOf(currentProject: Option<Project>): int {
    if currentProject.Some? && currentProject.value.id != 0 then currentProject.value.id else 1
  }

  function LevelsOf(currentProject: Option<Project>): Option<seq<CommissionLevel>> {
    if currentProject.Some? then Some(currentProject.value.commissionLevels) else None
  }

  /** `saleAmount * totalCommissionPercentage / 100`, as the submit and the type handler compute it. */
  function UnroundedCommission(saleAmount: real, totalCommissionPercentage: real): real {
    saleAmount * totalCommissionPercentage / 100.0
  }

  /** The `saleData` record `handleSubmit` hands to `onSubmit`. */
  function BuildSale(formData: FormData, isNoSale: bool, currentProject: Option<Project>,
                     currentTotalVolume: real, h: SalesHelpers, js: JsNumbers): Sale {
    var saleAmount := ParseOrZero(js, formData.saleAmount);
    var totalCommissionPercentage :=
      h.calculateTotalCommission(saleAmount, currentTotalVolume, formData.saleType, LevelsOf(currentProject));
    var fdiGiven := ParseOrZero(js, formData.fdi);
    Sale(
      projectId := ProjectIdOf(currentProject),
      date := formData.date,
      clientLastName := if isNoSale then NoSaleName else formData.clientLastName,
      leadNumber := formData.leadNumber,
      numberOfTours := formData.numberOfTours,
      managerName := if isNoSale then "-" else formData.managerName,
      saleAmount := if isNoSale then 0.0 else saleAmount,
      commissionPercentage := if isNoSale then 0.0 else totalCommissionPercentage,
      commissionAmount := if isNoSale then 0.0 else UnroundedCommission(saleAmount, totalCommissionPercentage),
      fdiPoints := if isNoSale then 0.0 else h.calculateFDIPoints(saleAmount),
      fdiGivenPoints := if isNoSale then 0.0 else fdiGiven,
      fdiCost := if isNoSale then 0.0 else h.calculateFDICost(fdiGiven, h.calculateFDIPoints(saleAmount)),
      dailyVPG := if isNoSale then 0.0 else h.calculateDailyVPG(saleAmount, formData.numberOfTours),
      notes := formData.notes,
      saleType := formData.saleType,
      isCancelled := formData.isCancelled,
      rank := 0,
      pointsInfo := formData.pointsInfo,
      fdi := formData.fdi)
  }

  /** A no-sale submit is named "NO SALE" with manager "-" and zero money and points, so the
      reports count only its tours. */
  lemma NoSaleSubmit(formData: FormData, currentProject: Option<Project>, currentTotalVolume: real,
                     h: SalesHelpers, js: JsNumbers)
    ensures var s := BuildSale(formData, true, currentProject, currentTotalVolume, h, js);
            && s.clientLastName == NoSaleName && s.managerName == "-"
            && s.saleAmount == 0.0 && s.commissionPercentage == 0.0 && s.commissionAmount == 0.0
            && s.fdiPoints == 0.0 && s.fdiGivenPoints == 0.0 && s.fdiCost == 0.0 && s.dailyVPG == 0.0
            && !IsActive(s)
            && Contribution(s) == Totals(0, 0.0, 0.0, formData.numberOfTours)
  {
  }

  /** A sale submit: the amount is the parsed text or 0, the commission amount is amount times
      the total percentage over 100 (unrounded), and the FDI figures come from the helpers. */
  lemma SaleSubmit(formData: FormData, currentProject: Option<Project>, currentTotalVolume: real,
                   h: SalesHelpers, js: JsNumbers)
    ensures var s := BuildSale(formData, false, currentProject, currentTotalVolume, h, js);
            var amount := ParseOrZero(js, formData.saleAmount);
            var given := ParseOrZero(js, formData.fdi);
            && (js.parseFloat(formData.saleAmount).None? ==> s.saleAmount == 0.0 && s.commissionAmount == 0.0)
            && (js.parseFloat(formData.fdi).None? ==> s.fdiGivenPoints == 0.0)
            && s.saleAmount == amount
            && s.commissionPercentage
               == h.calculateTotalCommission(amount, currentTotalVolume, formData.saleType, LevelsOf(currentProject))
            && s.commissionAmount * 100.0 == s.saleAmount * s.commissionPercentage
            && s.fdiPoints == h.calculateFDIPoints(amount)
            && s.fdiCost == h.calculateFDICost(given, h.calculateFDIPoints(amount))
            && s.clientLastName == formData.clientLastName && s.managerName == formData.managerName
  {
  }

  /** In every submit the key is the current project's (1 without one, or for key 0), the rank
      is 0, and date, lead, tours, notes, type, cancellation, points and FDI text are copied from the form. */
  lemma SubmitCopiesForm(formData: FormData, isNoSale: bool, currentProject: Option<Project>,
                         currentTotalVolume: real, h: SalesHelpers, js: JsNumbers)
    ensures var s := BuildSale(formData, isNoSale, currentProject, currentTotalVolume, h, js);
            && (currentProject.None? ==> s.projectId == 1)
            && (currentProject.Some? ==> s.projectId == if currentProject.value.id == 0 then 1 else currentProject.value.id)
            && s.rank == 0
            && s.date == formData.date && s.leadNumber == formData.leadNumber
            && s.numberOfTours == formData.numberOfTours && s.notes == formData.notes
            && s.saleType == formData.saleType && s.isCancelled == formData.isCancelled
            && s.pointsInfo == formData.pointsInfo && s.fdi == formData.fdi
  {
  }

  /** The editing effect's form: the entry's fields, amounts turned into text, and the FDI text
      taken from the given points. */
  function LoadForm(editingSale: Sale, js: JsNumbers): FormData {
    FormData(editingSale.date, editingSale.clientLastName, editingSale.leadNumber, editingSale.numberOfTours,
             editingSale.managerName, js.numberToString(editingSale.saleAmount),
             js.numberToString(editingSale.commissionPercentage), js.numberToString(editingSale.commissionAmount),
             js.numberToString(editingSale.fdiGivenPoints), editingSale.fdiPoints, editingSale.fdiGivenPoints,
             editingSale.fdiCost, editingSale.notes, editingSale.saleType, editingSale.isCancelled,
             editingSale.pointsInfo)
  }

  /** Loading an entry and submitting it unchanged gives back its identifying fields; a sale also
      keeps its name, manager, amount and given FDI points when the number text reads back as the
      same number, and a no-sale entry stays a no-sale. */
  lemma EditResubmit(editingSale: Sale, currentProject: Option<Project>, currentTotalVolume: real,
                     h: SalesHelpers, js: JsNumbers)
    requires js.parseFloat(js.numberToString(editingSale.saleAmount)) == Some(editingSale.saleAmount)
    requires js.parseFloat(js.numberToString(editingSale.fdiGivenPoints)) == Some(editingSale.fdiGivenPoints)
    ensures var isNoSale := editingSale.clientLastName == NoSaleName;
            var s := BuildSale(LoadForm(editingSale, js), isNoSale, currentProject, currentTotalVolume, h, js);
            && s.date == editingSale.date && s.leadNumber == editingSale.leadNumber
            && s.numberOfTours == editingSale.numberOfTours && s.notes == editingSale.notes
            && s.saleType == editingSale.saleType && s.isCancelled == editingSale.isCancelled
            && s.pointsInfo == editingSale.pointsInfo
            && s.clientLastName == editingSale.clientLastName
            && (!isNoSale ==> s.managerName == editingSale.managerName && s.saleAmount == editingSale.saleAmount
                              && s.fdiGivenPoints == editingSale.fdiGivenPoints)
            && (isNoSale ==> s.saleAmount == 0.0 && !IsActive(s))
  {
  }

  /** `Math.round(x * 100) / 100`: `Math.round` rounds half up, as the floor of x + 0.5. */
  function RoundCents(x: real): real {
    ((x * 100.0 + 0.5).Floor as real) / 100.0
  }

  /** Rounding to cents moves the value by at most half a cent, lands on a whole number of
      cents, and leaves a value already in cents as it is. */
  lemma RoundCentsSpec(x: real)
    ensures x - 0.005 < RoundCents(x) <= x + 0.005
    ensures (RoundCents(x) * 100.0).Floor as real == RoundCents(x) * 100.0
    ensures RoundCents(RoundCents(x)) == RoundCents(x)
  {
    var n := (x * 100.0 + 0.5).Floor;
    RoundCentsIsCents(x, n);
    RoundCentsOfCents(n);
  }

  /** The rounded value is the whole number of cents `n`, which lies within half a cent of x. */
  lemma RoundCentsIsCents(x: real, n: int)
    requires n == (x * 100.0 + 0.5).Floor
    ensures RoundCents(x) == n as real / 100.0
    ensures x - 0.005 < n as real / 100.0 <= x + 0.005
  {
  }

  /** A whole number of cents is a whole number of cents and rounds to itself. */
  lemma RoundCentsOfCents(n: int)
    ensures (n as real / 100.0 * 100.0).Floor as real == n as real / 100.0 * 100.0
    ensures RoundCents(n as real / 100.0) == n as real / 100.0
  {
    assert n as real / 100.0 * 100.0 == n as real;
    assert (n as real + 0.5).Floor == n;
  }

  /** `Math.round(saleAmount * (totalCommissionPercentage / 100) * 100) / 100`. */
  function RoundedCommission(saleAmount: real, totalCommissionPercentage: real): real {
    RoundCents(saleAmount * (totalCommissionPercentage / 100.0))
  }

  /** The shown commission is within half a cent of amount times percentage over 100. */
  lemma RoundedCommissionSpec(saleAmount: real, totalCommissionPercentage: real)
    ensures var exact := saleAmount * totalCommissionPercentage / 100.0;
            exact - 0.005 < RoundedCommission(saleAmount, totalCommissionPercentage) <= exact + 0.005
  {
    RoundCentsSpec(saleAmount * (totalCommissionPercentage / 100.0));
    assert saleAmount * (totalCommissionPercentage / 100.0) == saleAmount * totalCommissionPercentage / 100.0;
  }

  /** The sale-amount handler: keeps the typed text, recomputes the percentage and the commission
      amount rounded to cents, and the available FDI points. */
  function AfterSaleAmountChange(formData: FormData, text: string, currentTotalVolume: real,
                                 currentProject: Option<Project>, h: SalesHelpers, js: JsNumbers): FormData {
    var saleAmount := ParseOrZero(js, text);
    var totalCommissionPercentage :=
      h.calculateTotalCommission(saleAmount, currentTotalVolume, formData.saleType, LevelsOf(currentProject));
    var rounded := RoundedCommission(saleAmount, totalCommissionPercentage);
    formData.(saleAmount := text,
              commissionPercentage := js.numberToString(totalCommissionPercentage),
              commissionAmount := js.numberToString(rounded),
              fdiPoints := h.calculateFDIPoints(saleAmount))
  }

  /** The shown commission amount is within half a cent of amount times percentage over 100,
      and no other field but the four recomputed ones changes. */
  lemma SaleAmountChangeSpec(formData: FormData, text: string, currentTotalVolume: real,
                             currentProject: Option<Project>, h: SalesHelpers, js: JsNumbers)
    ensures var f := AfterSaleAmountChange(formData, text, currentTotalVolume, currentProject, h, js);
            var amount := ParseOrZero(js, text);
            var pct := h.calculateTotalCommission(amount, currentTotalVolume, formData.saleType, LevelsOf(currentProject));
            && (exists c: real :: f.commissionAmount == js.numberToString(c)
                                  && amount * pct / 100.0 - 0.005 < c <= amount * pct / 100.0 + 0.005)
            && f.(saleAmount := formData.saleAmount, commissionPercentage := formData.commissionPercentage,
                  commissionAmount := formData.commissionAmount, fdiPoints := formData.fdiPoints) == formData
  {
    var amount := ParseOrZero(js, text);
    var pct := h.calculateTotalCommission(amount, currentTotalVolume, formData.saleType, LevelsOf(currentProject));
    RoundedCommissionSpec(amount, pct);
    var f := AfterSaleAmountChange(formData, text, currentTotalVolume, currentProject, h, js);
    assert f.commissionAmount == js.numberToString(RoundedCommission(amount, pct));
  }

  /** The sale-type handler: the new type, its percentage, and the commission amount unrounded. */
  function AfterSaleTypeChange(formData: FormData, newSaleType: SaleType, currentTotalVolume: real,
                               currentProject: Option<Project>, h: SalesHelpers, js: JsNumbers): FormData {
    var saleAmount := ParseOrZero(js, formData.saleAmount);
    var totalCommissionPercentage :=
      h.calculateTotalCommission(saleAmount, currentTotalVolume, newSaleType, LevelsOf(currentProject));
    formData.(saleType := newSaleType,
              commissionPercentage := js.numberToString(totalCommissionPercentage),
              commissionAmount := js.numberToString(UnroundedCommission(saleAmount, totalCommissionPercentage)))
  }

  /** The FDI handler: the typed text, the parsed given points (0 when unparseable), and the cost
      against the available points already in the form. */
  function AfterFdiChange(formData: FormData, text: string, h: SalesHelpers, js: JsNumbers): FormData {
    var fdiGivenPoints := ParseOrZero(js, text);
    formData.(fdi := text, fdiGivenPoints := fdiGivenPoints,
              fdiCost := h.calculateFDICost(fdiGivenPoints, formData.fdiPoints))
  }

  /** Changing the type recomputes the percentage for the new type and shows the commission
      amount unrounded; no other field changes. */
  lemma SaleTypeChangeSpec(formData: FormData, newSaleType: SaleType, currentTotalVolume: real,
                           currentProject: Option<Project>, h: SalesHelpers, js: JsNumbers)
    ensures var f := AfterSaleTypeChange(formData, newSaleType, currentTotalVolume, currentProject, h, js);
            var amount := ParseOrZero(js, formData.saleAmount);
            var pct := h.calculateTotalCommission(amount, currentTotalVolume, newSaleType, LevelsOf(currentProject));
            && f.saleType == newSaleType
            && f.commissionPercentage == js.numberToString(pct)
            && f.commissionAmount == js.numberToString(UnroundedCommission(amount, pct))
            && f.(saleType := formData.saleType, commissionPercentage := formData.commissionPercentage,
                  commissionAmount := formData.commissionAmount) == formData
  {
  }

  /** The FDI handler takes unparseable text as 0 given points, prices them against the points
      already in the form, and changes nothing else. */
  lemma FdiChangeSpec(formData: FormData, text: string, h: SalesHelpers, js: JsNumbers)
    ensures var f := AfterFdiChange(formData, text, h, js);
            && f.fdi == text
            && (js.parseFloat(text).None? ==> f.fdiGivenPoints == 0.0)
            && (js.parseFloat(text).Some? ==> f.fdiGivenPoints == js.parseFloat(text).value)
            && f.fdiCost == h.calculateFDICost(f.fdiGivenPoints, formData.fdiPoints)
            && f.(fdi := formData.fdi, fdiGivenPoints := formData.fdiGivenPoints, fdiCost := formData.fdiCost)
               == formData
  {
  }

  /** Typing the amount and then the FDI points shows the same FDI figures the submit records:
      the points the form holds are those the submit recomputes from the amount. */
  lemma ShownFdiIsSubmitted(formData: FormData, amountText: string, fdiText: string, currentTotalVolume: real,
                            currentProject: Option<Project>, h: SalesHelpers, js: JsNumbers)
    ensures var f := AfterFdiChange(AfterSaleAmountChange(formData, amountText, currentTotalVolume,
                                                          currentProject, h, js), fdiText, h, js);
            var s := BuildSale(f, false, currentProject, currentTotalVolume, h, js);
            && s.fdiPoints == f.fdiPoints
            && s.fdiGivenPoints == f.fdiGivenPoints
            && s.fdiCost == f.fdiCost
  {
  }

  /** The form's state: its fields, the no-sale switch, the loaded project, and the initial
      values it resets to. */
  class SalesFormState {
    var formData: FormData
    var isNoSale: bool
    var currentProject: Option<Project>
    const initialFormData: FormData

    constructor(today: CalendarDate)
      ensures initialFormData == InitialFormData(today)
      ensures formData == initialFormData && !isNoSale && currentProject == None
    {
      initialFormData := InitialFormData(today);
      formData := InitialFormData(today);
      isNoSale := false;
      currentProject := None;
    }

    /** The mount effect: fetch the current project from the store. */
    method LoadCurrentProject(db: SalesDatabase, monthName: string, now: string)
      requires db.Valid()
      modifies this, db
      ensures db.Valid()
      ensures currentProject.Some?
      ensures Fetched(db.State(), currentProject.value) == CurrentProjectOf(old(db.State()), monthName, now)
      ensures formData == old(formData) && isNoSale == old(isNoSale)
    {
      var project := db.GetCurrentProject(monthName, now);
      currentProject := Some(project);
    }

    /** The editing effect: load the entry (no-sale exactly when it is named "NO SALE"), or reset
        the form when there is none. */
    method LoadEditingSale(editingSale: Option<Sale>, js: JsNumbers)
      modifies this
      ensures editingSale.Some? ==> formData == LoadForm(editingSale.value, js)
                                    && (isNoSale <==> editingSale.value.clientLastName == NoSaleName)
      ensures editingSale.None? ==> formData == initialFormData && !isNoSale
      ensures currentProject == old(currentProject)
    {
      if editingSale.Some? {
        formData := LoadForm(editingSale.value, js);
        isNoSale := editingSale.value.clientLastName == NoSaleName;
      } else {
        formData := initialFormData;
        isNoSale := false;
      }
    }

    /** The entry-type switch. */
    method SetNoSale(noSale: bool)
      modifies this
      ensures isNoSale == noSale && formData == old(formData) && currentProject == old(currentProject)
    {
      isNoSale := noSale;
    }

    /** `handleSubmit`: build the entry, hand it on, and return the form to its initial values. */
    method HandleSubmit(currentTotalVolume: real, h: SalesHelpers, js: JsNumbers) returns (saleData: Sale)
      modifies this
      ensures saleData == BuildSale(old(formData), old(isNoSale), currentProject, currentTotalVolume, h, js)
      ensures formData == initialFormData && !isNoSale && currentProject == old(currentProject)
    {
      saleData := BuildSale(formData, isNoSale, currentProject, currentTotalVolume, h, js);
      formData := initialFormData;
      isNoSale := false;
    }

    method OnSaleAmountChange(text: string, currentTotalVolume: real, h: SalesHelpers, js: JsNumbers)
      modifies this
      ensures formData == AfterSaleAmountChange(old(formData), text, currentTotalVolume, currentProject, h, js)
      ensures isNoSale == old(isNoSale) && currentProject == old(currentProject)
    {
      formData := AfterSaleAmountChange(formData, text, currentTotalVolume, currentProject, h, js);
    }

    method OnSaleTypeChange(newSaleType: SaleType, currentTotalVolume: real, h: SalesHelpers, js: JsNumbers)
      modifies this
      ensures formData == AfterSaleTypeChange(old(formData), newSaleType, currentTotalVolume, currentProject, h, js)
      ensures isNoSale == old(isNoSale) && currentProject == old(currentProject)
    {
      formData := AfterSaleTypeChange(formData, newSaleType, currentTotalVolume, currentProject, h, js);
    }

    method OnFdiChange(text: string, h: SalesHelpers, js: JsNumbers)
      modifies this
      ensures formData == AfterFdiChange(old(formData), text, h, js)
      ensures isNoSale == old(isNoSale) && currentProject == old(currentProject)
    {
      formData := AfterFdiChange(formData, text, h, js);
    }
  }
}
