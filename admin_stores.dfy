/** The store-management admin page: the onboarding checklist it shows for
    the owner's first store (a pure computation over six flags), and the page
    state that derives those flags from the list endpoints' answers. */
module AdminStores {
  import opened Values
  import RoleGate

  // ---------------------------------------------------------------------
  // Onboarding checklist
  // ---------------------------------------------------------------------

  datatype Step = Step(caption: string, done: bool, link: string)

  /** The six inputs of the checklist. */
  datatype Flags = Flags(
    hasProducts: bool, hasCustomers: bool, hasTeamMembers: bool,
    hasOrders: bool, hasPayment: bool, hasBranding: bool)

  const StepCount := 6

  /** The checklist's steps, in display order. */
  function Steps(f: Flags): (steps: seq<Step>)
    ensures |steps| == StepCount
    ensures steps[0].done == f.hasProducts && steps[1].done == f.hasCustomers
    ensures steps[2].done == f.hasTeamMembers && steps[3].done == f.hasBranding
    ensures steps[4].done == f.hasPayment && steps[5].done == f.hasOrders
  {
    [ Step("Add your first product", f.hasProducts, "/admin/products"),
      Step("Add your first customer", f.hasCustomers, "/admin/customers"),
      Step("Invite a team member", f.hasTeamMembers, "/admin/teams"),
      Step("Set up branding", f.hasBranding, "/admin/stores?branding=1"),
      Step("Set up payments", f.hasPayment, "/admin/payments"),
      Step("Create your first order", f.hasOrders, "/admin/orders") ]
  }

  /** `steps.filter(s => s.done).length`. */
  function CountDone(steps: seq<Step>): (n: nat)
    ensures n <= |steps|
    ensures n == |steps| <==> forall i :: 0 <= i < |steps| ==> steps[i].done
    ensures n == 0 <==> forall i :: 0 <= i < |steps| ==> !steps[i].done
  {
    if steps == [] then 0
    else
      var rest := CountDone(steps[1..]);
      assert forall i :: 1 <= i < |steps| ==> steps[i] == steps[1..][i - 1];
      (if steps[0].done then 1 else 0) + rest
  }

  /** The number of completed steps shown as "completed / 6". */
  function Completed(f: Flags): nat {
    CountDone(Steps(f))
  }

  /** `Math.round((completed / 6) * 100)`: the whole percentage nearest to
      100 * completed / 6. No value of `completed` lands on a half, so the
      rounding direction of ties never matters. */
  function Percent(completed: nat): (p: nat)
    ensures 6 * p - 3 <= 100 * completed < 6 * p + 3
  {
    (completed * 100 + 3) / 6
  }

  function Count(b: bool): nat { if b then 1 else 0 }

  /** The completed count is the number of raised flags. */
  lemma {:induction false} CompletedCountsFlags(f: Flags)
    ensures Completed(f) == Count(f.hasProducts) + Count(f.hasCustomers)
      + Count(f.hasTeamMembers) + Count(f.hasBranding) + Count(f.hasPayment)
      + Count(f.hasOrders)
  {
    var s0 := Steps(f);
    var s1, s2, s3, s4, s5 := s0[1..], s0[2..], s0[3..], s0[4..], s0[5..];
    assert s5[1..] == [] && s4[1..] == s5 && s3[1..] == s4 && s2[1..] == s3 && s1[1..] == s2;
    assert CountDone(s5) == Count(f.hasOrders);
    assert CountDone(s4) == Count(f.hasPayment) + CountDone(s5);
    assert CountDone(s3) == Count(f.hasBranding) + CountDone(s4);
    assert CountDone(s2) == Count(f.hasTeamMembers) + CountDone(s3);
    assert CountDone(s1) == Count(f.hasCustomers) + CountDone(s2);
    assert CountDone(s0) == Count(f.hasProducts) + CountDone(s1);
  }

  /** The percentage stays in [0, 100], grows with the completed count, and
      is 100 exactly when all six steps are done and 0 exactly when none is. */
  lemma PercentRange(completed: nat)
    requires completed <= StepCount
    ensures Percent(completed) <= 100
    ensures Percent(completed) == 100 <==> completed == StepCount
    ensures Percent(completed) == 0 <==> completed == 0
  {
  }

  lemma PercentMonotone(a: nat, b: nat)
    requires a <= b
    ensures Percent(a) <= Percent(b)
  {
  }

  /** Progress is full exactly when every flag is raised, and empty exactly
      when none is. */
  lemma ProgressExtremes(f: Flags)
    ensures Percent(Completed(f)) == 100 <==>
      f.hasProducts && f.hasCustomers && f.hasTeamMembers && f.hasBranding && f.hasPayment && f.hasOrders
    ensures Percent(Completed(f)) == 0 <==>
      !f.hasProducts && !f.hasCustomers && !f.hasTeamMembers && !f.hasBranding && !f.hasPayment && !f.hasOrders
  {
    CompletedCountsFlags(f);
    PercentRange(Completed(f));
  }

  /** With payments never configured, the checklist never goes past five
      steps, 83 percent. */
  lemma PaymentPendingCapsProgress(f: Flags)
    requires !f.hasPayment
    ensures Completed(f) <= 5
    ensures Percent(Completed(f)) <= 83
  {
    CompletedCountsFlags(f);
    PercentMonotone(Completed(f), 5);
  }

  // ---------------------------------------------------------------------
  // The page state that feeds the checklist
  // ---------------------------------------------------------------------

  /** An entry of the owner's store list. */
  datatype StoreSummary = StoreSummary(id: Value, name: Value)

  /** A list request the onboarding effect sends, with its parameter. */
  datatype Query =
    | ProductsList(storeId: Value)
    | CustomersList(storeId: Value)
    | TeamsList(userId: string)
    | OrdersList(storeId: Value)
    | BrandingGet(storeId: Value)

  /** `(list || [])`: an absent or null list reads as empty. */
  function Listed<T>(list: Option<seq<T>>): seq<T> {
    if list.Some? then list.value else []
  }

  /** The page's React state: the owner's stores, the six checklist flags and
      the branding preview. Each fetch callback is a method that updates the
      fields its setters update. */
  class StoresPage {
    var stores: seq<StoreSummary>
    var hasProducts: bool
    var hasCustomers: bool
    var hasTeamMembers: bool
    var hasOrders: bool
    var hasPayment: bool
    var hasBranding: bool
    var logoUrl: Value
    var brandColor: Value

    /** The payment step is a placeholder that is never raised. */
    ghost predicate Valid()
      reads this
    {
      !hasPayment
    }

    function CurrentFlags(): Flags
      reads this
    {
      Flags(hasProducts, hasCustomers, hasTeamMembers, hasOrders, hasPayment, hasBranding)
    }

    /** The checklist is rendered only once the owner has a store; its flags
        are fetched exactly when it is shown and a user is signed in. */
    function ChecklistShown(): bool
      reads this
    {
      |stores| > 0
    }

    constructor ()
      ensures Valid()
      ensures stores == []
      ensures CurrentFlags() == Flags(false, false, false, false, false, false)
      ensures logoUrl == Str("") && brandColor == Str("#0070f3")
    {
      stores := [];
      hasProducts, hasCustomers, hasTeamMembers := false, false, false;
      hasOrders, hasPayment, hasBranding := false, false, false;
      logoUrl, brandColor := Str(""), Str("#0070f3");
    }

    /** `setStores(data.stores || [])`. */
    method ReceiveStores(list: Option<seq<StoreSummary>>)
      modifies this`stores
      ensures stores == Listed(list)
    {
      stores := Listed(list);
    }

    /** The onboarding effect: with no store or no user it does nothing;
        otherwise it sends the five list requests for the FIRST store (the
        teams request is for the user) and marks payments as not set up. */
    method RefreshOnboarding(user: Option<RoleGate.SessionUser>) returns (queries: seq<Query>)
      requires Valid()
      modifies this`hasPayment
      ensures Valid()
      ensures queries != [] <==> ChecklistShown() && user.Some?
      ensures |stores| == 0 || user.None? ==> queries == [] && hasPayment == old(hasPayment)
      ensures |stores| > 0 && user.Some? ==>
        queries == [ ProductsList(stores[0].id), CustomersList(stores[0].id),
                     TeamsList(user.value.id), OrdersList(stores[0].id),
                     BrandingGet(stores[0].id) ]
    {
      if |stores| == 0 || user.None? {
        return [];
      }
      var storeId := stores[0].id;
      queries := [ProductsList(storeId), CustomersList(storeId), TeamsList(user.value.id), OrdersList(storeId)];
      hasPayment := false;
      queries := queries + [BrandingGet(storeId)];
    }

    /** `setHasProducts((data.products || []).length > 0)`. */
    method ReceiveProducts<T>(products: Option<seq<T>>)
      modifies this`hasProducts
      ensures hasProducts <==> |Listed(products)| > 0
    {
      hasProducts := |Listed(products)| > 0;
    }

    /** `setHasCustomers((data.customers || []).length > 0)`. */
    method ReceiveCustomers<T>(customers: Option<seq<T>>)
      modifies this`hasCustomers
      ensures hasCustomers <==> |Listed(customers)| > 0
    {
      hasCustomers := |Listed(customers)| > 0;
    }

    /** `setHasTeamMembers((data.teams || []).length > 1)`: the step counts as
        done only when the user belongs to at least two teams. */
    method ReceiveTeams<T>(teams: Option<seq<T>>)
      modifies this`hasTeamMembers
      ensures hasTeamMembers <==> |Listed(teams)| > 1
    {
      hasTeamMembers := |Listed(teams)| > 1;
    }

    /** `setHasOrders((data.orders || []).length > 0)`. */
    method ReceiveOrders<T>(orders: Option<seq<T>>)
      modifies this`hasOrders
      ensures hasOrders <==> |Listed(orders)| > 0
    {
      hasOrders := |Listed(orders)| > 0;
    }

    /** The branding answer: a present logo and colour replace the preview;
        branding counts as done only when there is a logo, whatever the
        colour. */
    method ReceiveBranding(data: Record)
      modifies this`logoUrl, this`brandColor, this`hasBranding
      ensures hasBranding <==> Truthy(Field(data, "logo_url"))
      ensures logoUrl == if Truthy(Field(data, "logo_url")) then Field(data, "logo_url") else old(logoUrl)
      ensures brandColor == if Truthy(Field(data, "brand_color")) then Field(data, "brand_color") else old(brandColor)
    {
      var logo := Field(data, "logo_url");
      var color := Field(data, "brand_color");
      if Truthy(logo) {
        logoUrl := logo;
      }
      if Truthy(color) {
        brandColor := color;
      }
      hasBranding := Truthy(logo);
    }

    /** The answer to the branding form: on success the returned logo URL
        replaces the preview when present and decides the branding step. */
    method ReceiveBrandingSaved(ok: bool, data: Record)
      modifies this`logoUrl, this`hasBranding
      ensures !ok ==> logoUrl == old(logoUrl) && hasBranding == old(hasBranding)
      ensures ok ==> (hasBranding <==> Truthy(Field(data, "logoUrl")))
      ensures ok ==> logoUrl == if Truthy(Field(data, "logoUrl")) then Field(data, "logoUrl") else old(logoUrl)
    {
      if ok {
        var url := Field(data, "logoUrl");
        if Truthy(url) {
          logoUrl := url;
        }
        hasBranding := Truthy(url);
      }
    }
  }

  /** Whatever order the callbacks arrive in, the page's checklist stays at
      or below five steps and 83 percent. */
  lemma PageProgressCapped(page: StoresPage)
    requires page.Valid()
    ensures Completed(page.CurrentFlags()) <= 5
    ensures Percent(Completed(page.CurrentFlags())) <= 83
  {
    PaymentPendingCapsProgress(page.CurrentFlags());
  }
}
