/** The subscription-plans page: one page of plans fetched with offset pagination and a
    status filter, a modal that creates or edits a plan, and a per-plan active switch. The
    calls to the back end are not modelled; their outcomes are passed in. */
module SubscriptionPage {
  import opened Wrappers
  import opened Http
  import opened Lists
  import opened Paging

  datatype PlanType = Free | Paid

  datatype Period = Daily | Weekly | Monthly | Quarterly | Yearly

  /** The fields the plan form submits (a plan without its id, its gateway plan id and its
      timestamps). Prices are whole numbers here. */
  datatype PlanValues = PlanValues(
    planType: PlanType,
    name: string,
    price: int,
    interval: Option<int>,
    period: Option<Period>,
    maxRecordingDuration: int,
    hasAiFeatures: bool,
    allowsCustomBranding: bool,
    hasAdvancedEditing: bool,
    maxMembers: Option<int>,
    maxVideoCount: Option<int>,
    maxWorkspaces: Option<int>,
    isActive: bool)

  datatype Plan = Plan(id: string, planId: Option<string>, values: PlanValues, createdAt: string, updatedAt: string)

  function PlanKey(p: Plan): string { p.id }

  /** The query of one fetch; `status` is sent even when it is "all". */
  datatype PlansQuery = PlansQuery(skip: int, limit: int, status: string)

  /** The body of a fetch: `plans` and `total`, either of which may be missing. */
  datatype PlansData = PlansData(plans: Option<seq<Plan>>, total: Option<int>)

  const FirstPage: int := 1
  const DefaultPageSize: int := 9
  const AllStatuses: string := "all"

  const FetchFallback: string := "Failed to fetch subscription plans"
  const SaveFallback: string := "Failed to save subscription plan"
  const ToggleFallback: string := "Failed to toggle plan status"
  const UpdatedNotice: string := "Subscription plan updated successfully!"
  const AddedNotice: string := "Subscription plan added successfully!"

  /** The values a new-plan form starts with. */
  const NewPlanDefaults: PlanValues :=
    PlanValues(Paid, "", 0, Some(1), Some(Monthly), 1, false, false, false, None, Some(1), None, true)

  /** The query for a page, a page size and a filter. */
  function QueryFor(page: int, size: int, status: string): (q: PlansQuery)
    ensures q.limit == size && q.status == status
    ensures page == FirstPage ==> q.skip == 0
  {
    PlansQuery(Skip(page, size), size, status)
  }

  /** Consecutive pages ask for consecutive slices of the same filtered list. */
  lemma QueriesTile(page: int, size: int, status: string)
    ensures QueryFor(page + 1, size, status).skip == QueryFor(page, size, status).skip + QueryFor(page, size, status).limit
  {
    PagesAreContiguous(page, size);
  }

  /** What a submitted plan becomes before it is sent: a free plan costs 0 and has no billing
      interval or period; a paid plan is sent as entered. */
  function Normalized(v: PlanValues): PlanValues {
    if v.planType == Free then v.(price := 0, interval := None, period := None) else v
  }

  /** Normalisation touches only the price, interval and period of free plans. */
  lemma NormalizedSpec(v: PlanValues)
    ensures var r := Normalized(v);
      && r.planType == v.planType
      && (v.planType == Free ==> r.price == 0 && r.interval == None && r.period == None)
      && (v.planType == Paid ==> r == v)
      && r.(price := v.price, interval := v.interval, period := v.period) == v
  {
  }

  /** Normalising an already normalised plan changes nothing. */
  lemma NormalizedIdempotent(v: PlanValues)
    ensures Normalized(Normalized(v)) == Normalized(v)
  {
  }

  /** The page state. */
  class PlansPage {
    var plans: seq<Plan>
    var isModalVisible: bool
    var editingPlan: Option<Plan>
    var loading: bool
    var currentPage: int
    var pageSize: int
    var totalPlans: int
    var statusFilter: string

    constructor()
      ensures plans == [] && !isModalVisible && editingPlan == None && !loading
      ensures currentPage == FirstPage && pageSize == DefaultPageSize && totalPlans == 0
      ensures statusFilter == AllStatuses
    {
      plans := [];
      isModalVisible := false;
      editingPlan := None;
      loading := false;
      currentPage := FirstPage;
      pageSize := DefaultPageSize;
      totalPlans := 0;
      statusFilter := AllStatuses;
    }

    /** `fetchPlans`: asks for the current page under the current filter. The list and total
        fall back to empty and 0 when the body lacks them; a failure keeps both. */
    method FetchPlans(response: Response<PlansData>) returns (query: PlansQuery, toast: Option<Toast>)
      modifies this
      ensures query == QueryFor(old(currentPage), old(pageSize), old(statusFilter))
      ensures response.Ok? ==> plans == response.data.plans.GetOr([]) && totalPlans == response.data.total.GetOr(0) && toast == None
      ensures response.Err? ==> plans == old(plans) && totalPlans == old(totalPlans)
      ensures response.Err? ==> toast == Some(ErrorToast(MessageOr(response.error, FetchFallback)))
      ensures !loading
      ensures currentPage == old(currentPage) && pageSize == old(pageSize) && statusFilter == old(statusFilter)
      ensures isModalVisible == old(isModalVisible) && editingPlan == old(editingPlan)
    {
      loading := true;
      var skip := Skip(currentPage, pageSize);
      query := PlansQuery(skip, pageSize, AllStatuses);
      query := query.(status := statusFilter);
      match response {
        case Ok(data) =>
          plans := data.plans.GetOr([]);
          totalPlans := data.total.GetOr(0);
          toast := None;
        case Err(e) =>
          toast := Some(ErrorToast(MessageOr(e, FetchFallback)));
      }
      loading := false;
    }

    /** `handleAddOrUpdatePlan`: the values are normalised in place and saved. An edit puts the
        saved plan in place of the one with its id; a create fetches the page again instead
        (`refetch` is that fetch's outcome). Either way the modal closes. A failed save
        leaves everything as it was. */
    method AddOrUpdatePlan(values: PlanValues, saved: Response<Plan>, refetch: Response<PlansData>)
      returns (submitted: PlanValues, query: Option<PlansQuery>, toasts: seq<Toast>)
      modifies this
      ensures submitted == Normalized(values)
      ensures saved.Ok? && old(editingPlan).Some? ==>
        && plans == ReplaceByKey(old(plans), PlanKey, saved.data) && totalPlans == old(totalPlans)
        && query == None && toasts == [SuccessToast(UpdatedNotice)]
      ensures saved.Ok? && old(editingPlan).None? ==>
        && query == Some(QueryFor(old(currentPage), old(pageSize), old(statusFilter)))
        && (refetch.Ok? ==> plans == refetch.data.plans.GetOr([]) && totalPlans == refetch.data.total.GetOr(0)
                            && toasts == [SuccessToast(AddedNotice)])
        && (refetch.Err? ==> plans == old(plans) && totalPlans == old(totalPlans)
                             && toasts == [SuccessToast(AddedNotice), ErrorToast(MessageOr(refetch.error, FetchFallback))])
      ensures saved.Ok? ==> !isModalVisible && editingPlan == None
      ensures saved.Err? ==>
        && plans == old(plans) && totalPlans == old(totalPlans)
        && isModalVisible == old(isModalVisible) && editingPlan == old(editingPlan)
        && query == None && toasts == [ErrorToast(MessageOr(saved.error, SaveFallback))]
      ensures !loading
      ensures currentPage == old(currentPage) && pageSize == old(pageSize) && statusFilter == old(statusFilter)
    {
      loading := true;
      submitted := values;
      if submitted.planType == Free {
        submitted := submitted.(price := 0);
        submitted := submitted.(interval := None);
        submitted := submitted.(period := None);
      }
      assert submitted == Normalized(values);
      query, toasts := SettleSave(saved, refetch);
      loading := false;
    }

    /** What `handleAddOrUpdatePlan` does with the save call's outcome. */
    method SettleSave(saved: Response<Plan>, refetch: Response<PlansData>) returns (query: Option<PlansQuery>, toasts: seq<Toast>)
      modifies this
      ensures saved.Ok? && old(editingPlan).Some? ==>
        && plans == ReplaceByKey(old(plans), PlanKey, saved.data) && totalPlans == old(totalPlans)
        && query == None && toasts == [SuccessToast(UpdatedNotice)]
      ensures saved.Ok? && old(editingPlan).None? ==>
        && query == Some(QueryFor(old(currentPage), old(pageSize), old(statusFilter)))
        && (refetch.Ok? ==> plans == refetch.data.plans.GetOr([]) && totalPlans == refetch.data.total.GetOr(0)
                            && toasts == [SuccessToast(AddedNotice)])
        && (refetch.Err? ==> plans == old(plans) && totalPlans == old(totalPlans)
                             && toasts == [SuccessToast(AddedNotice), ErrorToast(MessageOr(refetch.error, FetchFallback))])
      ensures saved.Ok? ==> !isModalVisible && editingPlan == None
      ensures saved.Err? ==>
        && plans == old(plans) && totalPlans == old(totalPlans)
        && isModalVisible == old(isModalVisible) && editingPlan == old(editingPlan)
        && query == None && toasts == [ErrorToast(MessageOr(saved.error, SaveFallback))]
      ensures currentPage == old(currentPage) && pageSize == old(pageSize) && statusFilter == old(statusFilter)
    {
      match saved {
        case Ok(newPlan) =>
          if editingPlan.Some? {
            plans := ReplaceByKey(plans, PlanKey, newPlan);
            query := None;
            toasts := [SuccessToast(UpdatedNotice)];
          } else {
            var q, fetchToast := FetchPlans(refetch);
            query := Some(q);
            toasts := [SuccessToast(AddedNotice)] + (if fetchToast.Some? then [fetchToast.value] else []);
          }
          isModalVisible := false;
          editingPlan := None;
        case Err(e) =>
          query := None;
          toasts := [ErrorToast(MessageOr(e, SaveFallback))];
      }
    }

    /** `handleToggleActive`: the plan the back end returns replaces the one with its id. */
    method ToggleActive(planId: string, isActive: bool, response: Response<Plan>) returns (toast: Toast)
      modifies this
      ensures response.Ok? ==> plans == ReplaceByKey(old(plans), PlanKey, response.data)
      ensures response.Ok? ==> toast == SuccessToast(if isActive then "Plan deactivated successfully!" else "Plan activated successfully!")
      ensures response.Err? ==> plans == old(plans) && toast == ErrorToast(MessageOr(response.error, ToggleFallback))
      ensures !loading
      ensures totalPlans == old(totalPlans) && currentPage == old(currentPage) && pageSize == old(pageSize)
      ensures statusFilter == old(statusFilter) && isModalVisible == old(isModalVisible) && editingPlan == old(editingPlan)
    {
      loading := true;
      match response {
        case Ok(updated) =>
          plans := ReplaceByKey(plans, PlanKey, updated);
          toast := SuccessToast(if isActive then "Plan deactivated successfully!" else "Plan activated successfully!");
        case Err(e) =>
          toast := ErrorToast(MessageOr(e, ToggleFallback));
      }
      loading := false;
    }

    /** `handlePageChange`: moves to `page`; a given page size (non-zero) that differs from
        the current one replaces it and sends the view back to the first page. */
    method PageChange(page: int, newPageSize: Option<int>)
      modifies this
      ensures newPageSize.Some? && newPageSize.value != 0 && newPageSize.value != old(pageSize) ==>
        pageSize == newPageSize.value && currentPage == FirstPage
      ensures !(newPageSize.Some? && newPageSize.value != 0 && newPageSize.value != old(pageSize)) ==>
        pageSize == old(pageSize) && currentPage == page
      ensures plans == old(plans) && totalPlans == old(totalPlans) && statusFilter == old(statusFilter)
      ensures isModalVisible == old(isModalVisible) && editingPlan == old(editingPlan) && loading == old(loading)
    {
      currentPage := page;
      if newPageSize.Some? && newPageSize.value != 0 && newPageSize.value != pageSize {
        pageSize := newPageSize.value;
        currentPage := FirstPage;
      }
    }

    /** `handleStatusFilterChange`: a new filter starts again from the first page. */
    method StatusFilterChange(value: string)
      modifies this
      ensures statusFilter == value && currentPage == FirstPage
      ensures plans == old(plans) && totalPlans == old(totalPlans) && pageSize == old(pageSize)
      ensures isModalVisible == old(isModalVisible) && editingPlan == old(editingPlan) && loading == old(loading)
    {
      statusFilter := value;
      currentPage := FirstPage;
    }

    /** `showModal`: opens the form on the given plan, or on the new-plan defaults. */
    method ShowModal(plan: Option<Plan>) returns (form: PlanValues)
      modifies this
      ensures editingPlan == plan && isModalVisible
      ensures form == (if plan.Some? then plan.value.values else NewPlanDefaults)
      ensures plans == old(plans) && totalPlans == old(totalPlans) && currentPage == old(currentPage)
      ensures pageSize == old(pageSize) && statusFilter == old(statusFilter) && loading == old(loading)
    {
      editingPlan := plan;
      form := if plan.Some? then plan.value.values else NewPlanDefaults;
      isModalVisible := true;
    }
  }
}
