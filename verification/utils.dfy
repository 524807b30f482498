/** The static tables of the assistant and the tenant lookup: the mocked
    tenant directory, the ordered map from free-text classifier labels to
    workflow types, and the map from workflow types to the stakeholder
    address copied on the reply. */
module Utils {
  import opened Basics

  /** What the directory knows about a tenant. */
  datatype TenantRecord = TenantRecord(
    name: string,
    unit: string,
    balanceDue: string,
    leaseStart: string,
    leaseEnd: string,
    recentRequests: seq<string>)

  /** The mocked tenant database, keyed by e-mail address. */
  const MockTenants: map<string, TenantRecord> := map[
    "schaudhry216@gmail.com" := TenantRecord("Shane Chaudhry", "2A", "$0", "2024-05-01", "2025-04-30",
                                             ["AC repair in April", "Plumbing issue in March"]),
    "janedoe@example.com" := TenantRecord("Jane Doe", "3B", "$150", "2023-10-01", "2024-09-30", []),
    "david.smith@renters.net" := TenantRecord("David Smith", "1C", "$75", "2024-01-15", "2024-12-31",
                                              ["Broken heater in January"]),
    "maria.lopez@samplemail.com" := TenantRecord("Maria Lopez", "4D", "$0", "2023-08-01", "2024-07-31",
                                                 ["Light fixture flickering", "Window jammed in February"])
  ]

  /** The record returned for an address the directory does not know. */
  const UnknownTenant := TenantRecord("Unknown", "Unknown", "Unknown", "Unknown", "Unknown", [])

  /** The lookup never fails: a known address gets its stored record
      unaltered, any other address the sentinel record. */
  function GetTenantContext(address: string): (r: TenantRecord)
    ensures address in MockTenants ==> r == MockTenants[address]
    ensures address !in MockTenants ==>
      && r.name == "Unknown" && r.unit == "Unknown" && r.balanceDue == "Unknown"
      && r.leaseStart == "Unknown" && r.leaseEnd == "Unknown" && r.recentRequests == []
  {
    if address in MockTenants then MockTenants[address] else UnknownTenant
  }

  /** The seven workflow types an action item can carry. */
  const MaintenanceRequest := "maintenance_request"
  const PaymentInquiry := "payment_inquiry"
  const LeaseInfoRequest := "lease_info_request"
  const AccessIssue := "access_issue"
  const CallbackRequest := "callback_request"
  const PestIssue := "pest_issue"
  const MaintenanceAndPaymentDispute := "maintenance_and_payment_dispute"

  const CanonicalTypes: set<string> := {
    MaintenanceRequest, PaymentInquiry, LeaseInfoRequest, AccessIssue,
    CallbackRequest, PestIssue, MaintenanceAndPaymentDispute
  }

  /** The type given to a classifier label that matches no key. */
  const OtherType := "other"

  /** Label keys and the type each stands for, in the map's insertion order,
      which decides between keys that both occur in one label. */
  const TypeNormalization: seq<(string, string)> := [
    ("maintenance", MaintenanceRequest),
    ("maintenance_request", MaintenanceRequest),
    ("hvac", MaintenanceRequest),
    ("plumbing", MaintenanceRequest),
    ("leak", MaintenanceRequest),
    ("payment", PaymentInquiry),
    ("rent", PaymentInquiry),
    ("invoice", PaymentInquiry),
    ("lease", LeaseInfoRequest),
    ("contract", LeaseInfoRequest),
    ("lockout", AccessIssue),
    ("locked out", AccessIssue),
    ("access", AccessIssue),
    ("callback", CallbackRequest),
    ("call me", CallbackRequest),
    ("pest", PestIssue),
    ("infestation", PestIssue),
    ("maintenance + payment", MaintenanceAndPaymentDispute)
  ]

  const OpsAddress := "ops@propertymanager.com"
  const MaintenanceAddress := "maintenance@propertymanager.com"
  const AccountingAddress := "accounting@propertymanager.com"
  const LeasingAddress := "leasing@propertymanager.com"
  const SecurityAddress := "security@propertymanager.com"
  const SupportAddress := "support@propertymanager.com"

  /** Who is copied on the reply, per workflow type. */
  const StakeholderCc: map<string, string> := map[
    MaintenanceRequest := MaintenanceAddress,
    PestIssue := MaintenanceAddress,
    PaymentInquiry := AccountingAddress,
    LeaseInfoRequest := LeasingAddress,
    AccessIssue := SecurityAddress,
    CallbackRequest := SupportAddress,
    MaintenanceAndPaymentDispute := OpsAddress
  ]

  /** `STAKEHOLDER_CC_MAP.get(type, "ops@propertymanager.com")`, where a
      missing type (`None`) is simply a key the map does not have. */
  function Route(itemType: Option<string>): (cc: string)
    ensures itemType.Some? && itemType.value in StakeholderCc ==> cc == StakeholderCc[itemType.value]
    ensures itemType.None? || itemType.value !in StakeholderCc ==> cc == OpsAddress
  {
    if itemType.Some? && itemType.value in StakeholderCc then StakeholderCc[itemType.value] else OpsAddress
  }

  /** Routing is total on the workflow types: each of the seven has its own
      entry and nothing else has one; maintenance and pest reports share the
      maintenance desk, and disputes go to the same address as the default. */
  lemma RoutingTable()
    ensures StakeholderCc.Keys == CanonicalTypes
    ensures Route(Some(MaintenanceRequest)) == Route(Some(PestIssue)) == MaintenanceAddress
    ensures Route(Some(PaymentInquiry)) == AccountingAddress
    ensures Route(Some(LeaseInfoRequest)) == LeasingAddress
    ensures Route(Some(AccessIssue)) == SecurityAddress
    ensures Route(Some(CallbackRequest)) == SupportAddress
    ensures Route(Some(MaintenanceAndPaymentDispute)) == Route(None) == Route(Some(OtherType)) == OpsAddress
  {
  }

  /** Every type the label map can produce is a key of the routing map, so
      a normalised type other than "other" is never routed by absence. */
  lemma NormalizationTargetsRouted()
    ensures forall k | 0 <= k < |TypeNormalization| ::
      TypeNormalization[k].1 in CanonicalTypes && TypeNormalization[k].1 in StakeholderCc
    ensures OtherType !in StakeholderCc
  {
  }
}
