/** The table of screens and the path each one owns (client/src/routes/appPaths.ts), grouped by area. */
module AppPathTable {
  import opened Collections

  datatype NavTab =
    | Home(tabHome: HomeTab)
    | StockViews(tabStockViews: StockViewsTab)
    | StockFiles(tabStockFiles: StockFilesTab)
    | Assets(tabAssets: AssetsTab)
    | Catalogue(tabCatalogue: CatalogueTab)
    | Consumption(tabConsumption: ConsumptionTab)
    | Transfers(tabTransfers: TransfersTab)
    | Orders(tabOrders: OrdersTab)
    | Shipments(tabShipments: ShipmentsTab)
    | SalesDocuments(tabSalesDocuments: SalesDocumentsTab)
    | SalesParties(tabSalesParties: SalesPartiesTab)
    | Access(tabAccess: AccessTab)
    | AccountingViews(tabAccountingViews: AccountingViewsTab)
    | AccountingLists(tabAccountingLists: AccountingListsTab)
    | AccountingEntries(tabAccountingEntries: AccountingEntriesTab)
    | FinanceRegisters(tabFinanceRegisters: FinanceRegistersTab)
    | FinanceLedgers(tabFinanceLedgers: FinanceLedgersTab)
    | Fiscal(tabFiscal: FiscalTab)
    | Setup(tabSetup: SetupTab)

  datatype HomeTab = Dashboard | Approvals | WorkflowApproval | HelpDocumentation | DevStatcard
  datatype StockViewsTab = AllStock | BranchStock | ReorderStock | DamagedStock | StockValuation
  datatype StockFilesTab = StockLedger | PhysicalStockAudit | ImportStock | ExportStock
  datatype AssetsTab = FixedAssets | AssignAsset | AssetDeployments
  datatype CatalogueTab = ProductMaster | OpeningStock | ProductGroupManagement | Pullout | PulloutReport
  datatype ConsumptionTab = CategoryManagement | Damage | DamageReport | ConsumableIssue | ConsumablesRegister
  datatype TransfersTab = UomManagement | CreateTransfer | ReceiveBranchTransfer | DeviceExchange
  datatype OrdersTab = CreatePo | PoList | CreatePurchase | PurchaseList
  datatype ShipmentsTab = PurchaseReturns | CreatePurchaseReturn | CreateShipment | ReceiveShipment | ShipmentList |
    Suppliers
  datatype SalesDocumentsTab = CreateSale | SalesList | SalesReturns | CreateSalesReturn
  datatype SalesPartiesTab = Customers | SalesAgentsAreas | ImportCustomers | CustomerDevices
  datatype AccessTab = CompleteSerialInventory | Users | Permissions | UserPermissions
  datatype AccountingViewsTab = Accounting | AccountingCashFlow | AccountingCashBook | AccountingAging |
    AccountingChart
  datatype AccountingListsTab = AccountingProfitLoss | Subledgers | BillTerms | NarrationTemplates
  datatype AccountingEntriesTab = AccountingBalanceSheet | JournalEntry | CashBankEntry | GeneralLedger | CostCenters
  datatype FinanceRegistersTab = CashPosition | VatRegister | DepreciationRegister | Audit
  datatype FinanceLedgersTab = FinancialStatements | CustomerLedger | VendorLedger | VendorOpeningBalances
  datatype FiscalTab = FiscalYearManagement | FiscalYearClosing | NepaliFiscal | BsCalendar | SupplierWarranty |
    SellerWarranty
  datatype SetupTab = Branches | Locations | CompanySetup | DataRecalculation | ClearDemoData

  /** The tab a key of the table names. */
  function TabNamed(id: string): Option<NavTab> {
    match id
    case "dashboard" => Some(Home(Dashboard))
    case "approvals" => Some(Home(Approvals))
    case "workflow-approval" => Some(Home(WorkflowApproval))
    case "help-documentation" => Some(Home(HelpDocumentation))
    case "dev-statcard" => Some(Home(DevStatcard))
    case "all-stock" => Some(StockViews(AllStock))
    case "branch-stock" => Some(StockViews(BranchStock))
    case "reorder-stock" => Some(StockViews(ReorderStock))
    case "damaged-stock" => Some(StockViews(DamagedStock))
    case "stock-valuation" => Some(StockViews(StockValuation))
    case "stock-ledger" => Some(StockFiles(StockLedger))
    case "physical-stock-audit" => Some(StockFiles(PhysicalStockAudit))
    case "import-stock" => Some(StockFiles(ImportStock))
    case "export-stock" => Some(StockFiles(ExportStock))
    case "fixed-assets" => Some(Assets(FixedAssets))
    case "assign-asset" => Some(Assets(AssignAsset))
    case "asset-deployments" => Some(Assets(AssetDeployments))
    case "product-master" => Some(Catalogue(ProductMaster))
    case "opening-stock" => Some(Catalogue(OpeningStock))
    case "product-group-management" => Some(Catalogue(ProductGroupManagement))
    case "pullout" => Some(Catalogue(Pullout))
    case "pullout-report" => Some(Catalogue(PulloutReport))
    case "category-management" => Some(Consumption(CategoryManagement))
    case "damage" => Some(Consumption(Damage))
    case "damage-report" => Some(Consumption(DamageReport))
    case "consumable-issue" => Some(Consumption(ConsumableIssue))
    case "consumables-register" => Some(Consumption(ConsumablesRegister))
    case "uom-management" => Some(Transfers(UomManagement))
    case "create-transfer" => Some(Transfers(CreateTransfer))
    case "receive-branch-transfer" => Some(Transfers(ReceiveBranchTransfer))
    case "device-exchange" => Some(Transfers(DeviceExchange))
    case "create-po" => Some(Orders(CreatePo))
    case "po-list" => Some(Orders(PoList))
    case "create-purchase" => Some(Orders(CreatePurchase))
    case "purchase-list" => Some(Orders(PurchaseList))
    case "purchase-returns" => Some(Shipments(PurchaseReturns))
    case "create-purchase-return" => Some(Shipments(CreatePurchaseReturn))
    case "create-shipment" => Some(Shipments(CreateShipment))
    case "receive-shipment" => Some(Shipments(ReceiveShipment))
    case "shipment-list" => Some(Shipments(ShipmentList))
    case "suppliers" => Some(Shipments(Suppliers))
    case "create-sale" => Some(SalesDocuments(CreateSale))
    case "sales-list" => Some(SalesDocuments(SalesList))
    case "sales-returns" => Some(SalesDocuments(SalesReturns))
    case "create-sales-return" => Some(SalesDocuments(CreateSalesReturn))
    case "customers" => Some(SalesParties(Customers))
    case "sales-agents-areas" => Some(SalesParties(SalesAgentsAreas))
    case "import-customers" => Some(SalesParties(ImportCustomers))
    case "customer-devices" => Some(SalesParties(CustomerDevices))
    case "complete-serial-inventory" => Some(Access(CompleteSerialInventory))
    case "users" => Some(Access(Users))
    case "permissions" => Some(Access(Permissions))
    case "user-permissions" => Some(Access(UserPermissions))
    case "accounting" => Some(AccountingViews(Accounting))
    case "accounting-cash-flow" => Some(AccountingViews(AccountingCashFlow))
    case "accounting-cash-book" => Some(AccountingViews(AccountingCashBook))
    case "accounting-aging" => Some(AccountingViews(AccountingAging))
    case "accounting-chart" => Some(AccountingViews(AccountingChart))
    case "accounting-profit-loss" => Some(AccountingLists(AccountingProfitLoss))
    case "subledgers" => Some(AccountingLists(Subledgers))
    case "bill-terms" => Some(AccountingLists(BillTerms))
    case "narration-templates" => Some(AccountingLists(NarrationTemplates))
    case "accounting-balance-sheet" => Some(AccountingEntries(AccountingBalanceSheet))
    case "journal-entry" => Some(AccountingEntries(JournalEntry))
    case "cash-bank-entry" => Some(AccountingEntries(CashBankEntry))
    case "general-ledger" => Some(AccountingEntries(GeneralLedger))
    case "cost-centers" => Some(AccountingEntries(CostCenters))
    case "cash-position" => Some(FinanceRegisters(CashPosition))
    case "vat-register" => Some(FinanceRegisters(VatRegister))
    case "depreciation-register" => Some(FinanceRegisters(DepreciationRegister))
    case "audit" => Some(FinanceRegisters(Audit))
    case "financial-statements" => Some(FinanceLedgers(FinancialStatements))
    case "customer-ledger" => Some(FinanceLedgers(CustomerLedger))
    case "vendor-ledger" => Some(FinanceLedgers(VendorLedger))
    case "vendor-opening-balances" => Some(FinanceLedgers(VendorOpeningBalances))
    case "fiscal-year-management" => Some(Fiscal(FiscalYearManagement))
    case "fiscal-year-closing" => Some(Fiscal(FiscalYearClosing))
    case "nepali-fiscal" => Some(Fiscal(NepaliFiscal))
    case "bs-calendar" => Some(Fiscal(BsCalendar))
    case "supplier-warranty" => Some(Fiscal(SupplierWarranty))
    case "seller-warranty" => Some(Fiscal(SellerWarranty))
    case "branches" => Some(Setup(Branches))
    case "locations" => Some(Setup(Locations))
    case "company-setup" => Some(Setup(CompanySetup))
    case "data-recalculation" => Some(Setup(DataRecalculation))
    case "clear-demo-data" => Some(Setup(ClearDemoData))
    case _ => None
  }

  function HomePath(tab: HomeTab): string {
    match tab
    case Dashboard => "/dashboard"
    case Approvals => "/approvals"
    case WorkflowApproval => "/approvals"
    case HelpDocumentation => "/help"
    case DevStatcard => "/dev/statcards"
  }

  function StockViewsPath(tab: StockViewsTab): string {
    match tab
    case AllStock => "/inventory/stock"
    case BranchStock => "/inventory/stock/branches"
    case ReorderStock => "/inventory/stock/reorder"
    case DamagedStock => "/inventory/stock/damaged"
    case StockValuation => "/inventory/stock/valuation"
  }

  function StockFilesPath(tab: StockFilesTab): string {
    match tab
    case StockLedger => "/inventory/stock/ledger"
    case PhysicalStockAudit => "/inventory/stock/audits"
    case ImportStock => "/inventory/stock/import"
    case ExportStock => "/inventory/stock/export"
  }

  function AssetsPath(tab: AssetsTab): string {
    match tab
    case FixedAssets => "/inventory/assets"
    case AssignAsset => "/inventory/assets/assign"
    case AssetDeployments => "/inventory/assets/deployments"
  }

  function CataloguePath(tab: CatalogueTab): string {
    match tab
    case ProductMaster => "/inventory/products"
    case OpeningStock => "/inventory/opening-stock"
    case ProductGroupManagement => "/inventory/product-groups"
    case Pullout => "/inventory/pullouts/new"
    case PulloutReport => "/inventory/pullouts"
  }

  function ConsumptionPath(tab: ConsumptionTab): string {
    match tab
    case CategoryManagement => "/inventory/categories"
    case Damage => "/inventory/damage/new"
    case DamageReport => "/inventory/damage"
    case ConsumableIssue => "/inventory/consumables/issue"
    case ConsumablesRegister => "/inventory/consumables"
  }

  function TransfersPath(tab: TransfersTab): string {
    match tab
    case UomManagement => "/inventory/uom"
    case CreateTransfer => "/inventory/transfers/new"
    case ReceiveBranchTransfer => "/inventory/transfers/receive"
    case DeviceExchange => "/inventory/exchange"
  }

  function OrdersPath(tab: OrdersTab): string {
    match tab
    case CreatePo => "/purchasing/orders/new"
    case PoList => "/purchasing/orders"
    case CreatePurchase => "/purchasing/invoices/new"
    case PurchaseList => "/purchasing/invoices"
  }

  function ShipmentsPath(tab: ShipmentsTab): string {
    match tab
    case PurchaseReturns => "/purchasing/returns"
    case CreatePurchaseReturn => "/purchasing/returns/new"
    case CreateShipment => "/purchasing/shipments/new"
    case ReceiveShipment => "/purchasing/shipments/receive"
    case ShipmentList => "/purchasing/shipments"
    case Suppliers => "/purchasing/suppliers"
  }

  function SalesDocumentsPath(tab: SalesDocumentsTab): string {
    match tab
    case CreateSale => "/sales/invoices/new"
    case SalesList => "/sales/invoices"
    case SalesReturns => "/sales/returns"
    case CreateSalesReturn => "/sales/returns/new"
  }

  function SalesPartiesPath(tab: SalesPartiesTab): string {
    match tab
    case Customers => "/sales/customers"
    case SalesAgentsAreas => "/sales/agents-areas"
    case ImportCustomers => "/sales/customers/import"
    case CustomerDevices => "/sales/customer-devices"
  }

  function AccessPath(tab: AccessTab): string {
    match tab
    case CompleteSerialInventory => "/serial-register"
    case Users => "/settings/users"
    case Permissions => "/settings/permissions"
    case UserPermissions => "/settings/user-permissions"
  }

  function AccountingViewsPath(tab: AccountingViewsTab): string {
    match tab
    case Accounting => "/finance/accounting"
    case AccountingCashFlow => "/finance/accounting/cash-flow"
    case AccountingCashBook => "/finance/accounting/cash-book"
    case AccountingAging => "/finance/accounting/aging"
    case AccountingChart => "/finance/accounting/chart"
  }

  function AccountingListsPath(tab: AccountingListsTab): string {
    match tab
    case AccountingProfitLoss => "/finance/accounting/profit-loss"
    case Subledgers => "/finance/accounting/subledgers"
    case BillTerms => "/finance/accounting/bill-terms"
    case NarrationTemplates => "/finance/accounting/narrations"
  }

  function AccountingEntriesPath(tab: AccountingEntriesTab): string {
    match tab
    case AccountingBalanceSheet => "/finance/accounting/balance-sheet"
    case JournalEntry => "/finance/accounting/journal-entry"
    case CashBankEntry => "/finance/accounting/cash-bank-entry"
    case GeneralLedger => "/finance/accounting/general-ledger"
    case CostCenters => "/finance/accounting/cost-centers"
  }

  function FinanceRegistersPath(tab: FinanceRegistersTab): string {
    match tab
    case CashPosition => "/finance/cash-close"
    case VatRegister => "/finance/vat"
    case DepreciationRegister => "/finance/depreciation"
    case Audit => "/finance/audit"
  }

  function FinanceLedgersPath(tab: FinanceLedgersTab): string {
    match tab
    case FinancialStatements => "/finance/overview"
    case CustomerLedger => "/finance/ledger/customers"
    case VendorLedger => "/finance/ledger/vendors"
    case VendorOpeningBalances => "/finance/opening-balances"
  }

  function FiscalPath(tab: FiscalTab): string {
    match tab
    case FiscalYearManagement => "/fiscal/document-numbering"
    case FiscalYearClosing => "/fiscal/closing"
    case NepaliFiscal => "/fiscal"
    case BsCalendar => "/fiscal/calendar"
    case SupplierWarranty => "/warranties/supplier"
    case SellerWarranty => "/warranties/seller"
  }

  function SetupPath(tab: SetupTab): string {
    match tab
    case Branches => "/settings/branches"
    case Locations => "/settings/locations"
    case CompanySetup => "/settings/company"
    case DataRecalculation => "/settings/maintenance"
    case ClearDemoData => "/settings/demo-data"
  }

  function AppPath(tab: NavTab): string {
    match tab
    case Home(t) => HomePath(t)
    case StockViews(t) => StockViewsPath(t)
    case StockFiles(t) => StockFilesPath(t)
    case Assets(t) => AssetsPath(t)
    case Catalogue(t) => CataloguePath(t)
    case Consumption(t) => ConsumptionPath(t)
    case Transfers(t) => TransfersPath(t)
    case Orders(t) => OrdersPath(t)
    case Shipments(t) => ShipmentsPath(t)
    case SalesDocuments(t) => SalesDocumentsPath(t)
    case SalesParties(t) => SalesPartiesPath(t)
    case Access(t) => AccessPath(t)
    case AccountingViews(t) => AccountingViewsPath(t)
    case AccountingLists(t) => AccountingListsPath(t)
    case AccountingEntries(t) => AccountingEntriesPath(t)
    case FinanceRegisters(t) => FinanceRegistersPath(t)
    case FinanceLedgers(t) => FinanceLedgersPath(t)
    case Fiscal(t) => FiscalPath(t)
    case Setup(t) => SetupPath(t)
  }

  /** The live screen a tab names; one tab is retired. */
  function CanonicalTab(tab: NavTab): NavTab { if tab == Home(WorkflowApproval) then Home(Approvals) else tab }

  predicate Live(tab: NavTab) { CanonicalTab(tab) == tab }

  /** The map from paths to live screens. */
  ghost function ScreenAt(path: string): Option<NavTab> {
    if exists t :: Owns(t, path) then
      var t :| Owns(t, path);
      Some(t)
    else None
  }

  predicate Owns(tab: NavTab, path: string) { Live(tab) && AppPath(tab) == path }

  lemma ScreenOwns(path: string)
    ensures ScreenAt(path).Some? ==> Owns(ScreenAt(path).value, path)
  {
  }

  predicate PlainChar(c: char) { 'a' <= c <= 'z' || c == '-' || c == '/' }

  /** Lower-case letters, dashes and slashes only. */
  predicate Plain(p: string) { forall i :: 0 <= i < |p| ==> PlainChar(p[i]) }

  /** Opening with a slash, with no trailing slash, and not an edit route. */
  predicate Shape(p: string) {
    |p| > 3 && p[0] == '/' && p[|p| - 1] != '/' && (p[|p| - 1] != 't' || p[|p| - 4] != 'e')
  }

  // Each area is checked by itself. `AreaAt` tells from a path alone which area it belongs to, so two equal paths are
  // compared inside one area only.

  datatype Area = InHome | InStockViews | InStockFiles | InAssets | InCatalogue | InConsumption | InTransfers |
    InOrders | InShipments | InSalesDocuments | InSalesParties | InAccess | InAccountingViews | InAccountingLists |
    InAccountingEntries | InFinanceRegisters | InFinanceLedgers | InFiscal | InSetup

  function AreaOf(tab: NavTab): Area {
    match tab
    case Home(_) => InHome
    case StockViews(_) => InStockViews
    case StockFiles(_) => InStockFiles
    case Assets(_) => InAssets
    case Catalogue(_) => InCatalogue
    case Consumption(_) => InConsumption
    case Transfers(_) => InTransfers
    case Orders(_) => InOrders
    case Shipments(_) => InShipments
    case SalesDocuments(_) => InSalesDocuments
    case SalesParties(_) => InSalesParties
    case Access(_) => InAccess
    case AccountingViews(_) => InAccountingViews
    case AccountingLists(_) => InAccountingLists
    case AccountingEntries(_) => InAccountingEntries
    case FinanceRegisters(_) => InFinanceRegisters
    case FinanceLedgers(_) => InFinanceLedgers
    case Fiscal(_) => InFiscal
    case Setup(_) => InSetup
  }

  function AreaAt(p: string): Area {
    if |p| < 4 then InHome
    else if p[1] == 'i' then InventoryArea(p)
    else if p[1] == 'p' then if |p| > 12 && (p[12] == 'o' || p[12] == 'i') then InOrders else InShipments
    else if p[1] == 's' then
      if p[2] == 'a' then if |p| > 7 && (p[7] == 'i' || p[7] == 'r') then InSalesDocuments else InSalesParties
      else if |p| > 10 && (p[10] == 'g' || p[10] == 'p' || p[10] == 'u') then InAccess else InSetup
    else if p[1] == 'f' then if p[3] == 's' then InFiscal else FinanceArea(p)
    else if p[1] == 'w' then InFiscal
    else InHome
  }

  function InventoryArea(p: string): Area {
    if |p| < 12 then InStockViews
    else if p[11] == 's' then
      if |p| < 18 || p[17] == 'b' || p[17] == 'd' || p[17] == 'r' || p[17] == 'v' then InStockViews else InStockFiles
    else if p[11] == 'a' then InAssets
    else if p[11] == 'c' || p[11] == 'd' then InConsumption
    else if p[11] == 'o' || p[11] == 'p' then InCatalogue
    else InTransfers
  }

  function FinanceArea(p: string): Area {
    if |p| > 10 && p[9] == 'a' && p[10] == 'c' then
      if |p| <= 29 then InAccountingViews else if |p| <= 31 then InAccountingLists else InAccountingEntries
    else if |p| > 9 && (p[9] == 'l' || p[9] == 'o') then InFinanceLedgers
    else InFinanceRegisters
  }

  lemma HomeShape(t: HomeTab)
    ensures Shape(HomePath(t)) && AreaAt(HomePath(t)) == InHome
  {
  }

  lemma HomePlain(t: HomeTab)
    ensures Plain(HomePath(t))
  {
  }

  lemma HomeDiffers(t: HomeTab, u: HomeTab)
    requires HomePath(t) == HomePath(u) && t != WorkflowApproval && u != WorkflowApproval
    ensures t == u
  {
  }

  lemma StockViewsShape(t: StockViewsTab)
    ensures Shape(StockViewsPath(t)) && AreaAt(StockViewsPath(t)) == InStockViews
  {
  }

  lemma StockViewsPlain(t: StockViewsTab)
    ensures Plain(StockViewsPath(t))
  {
  }

  lemma StockViewsDiffers(t: StockViewsTab, u: StockViewsTab)
    requires StockViewsPath(t) == StockViewsPath(u)
    ensures t == u
  {
  }

  lemma StockFilesShape(t: StockFilesTab)
    ensures Shape(StockFilesPath(t)) && AreaAt(StockFilesPath(t)) == InStockFiles
  {
  }

  lemma StockFilesPlain(t: StockFilesTab)
    ensures Plain(StockFilesPath(t))
  {
  }

  lemma StockFilesDiffers(t: StockFilesTab, u: StockFilesTab)
    requires StockFilesPath(t) == StockFilesPath(u)
    ensures t == u
  {
  }

  lemma AssetsShape(t: AssetsTab)
    ensures Shape(AssetsPath(t)) && AreaAt(AssetsPath(t)) == InAssets
  {
  }

  lemma AssetsPlain(t: AssetsTab)
    ensures Plain(AssetsPath(t))
  {
  }

  lemma AssetsDiffers(t: AssetsTab, u: AssetsTab)
    requires AssetsPath(t) == AssetsPath(u)
    ensures t == u
  {
  }

  lemma CatalogueShape(t: CatalogueTab)
    ensures Shape(CataloguePath(t)) && AreaAt(CataloguePath(t)) == InCatalogue
  {
  }

  lemma CataloguePlain(t: CatalogueTab)
    ensures Plain(CataloguePath(t))
  {
  }

  lemma CatalogueDiffers(t: CatalogueTab, u: CatalogueTab)
    requires CataloguePath(t) == CataloguePath(u)
    ensures t == u
  {
  }

  lemma ConsumptionShape(t: ConsumptionTab)
    ensures Shape(ConsumptionPath(t)) && AreaAt(ConsumptionPath(t)) == InConsumption
  {
  }

  lemma ConsumptionPlain(t: ConsumptionTab)
    ensures Plain(ConsumptionPath(t))
  {
  }

  lemma ConsumptionDiffers(t: ConsumptionTab, u: ConsumptionTab)
    requires ConsumptionPath(t) == ConsumptionPath(u)
    ensures t == u
  {
  }

  lemma TransfersShape(t: TransfersTab)
    ensures Shape(TransfersPath(t)) && AreaAt(TransfersPath(t)) == InTransfers
  {
  }

  lemma TransfersPlain(t: TransfersTab)
    ensures Plain(TransfersPath(t))
  {
  }

  lemma TransfersDiffers(t: TransfersTab, u: TransfersTab)
    requires TransfersPath(t) == TransfersPath(u)
    ensures t == u
  {
  }

  lemma OrdersShape(t: OrdersTab)
    ensures Shape(OrdersPath(t)) && AreaAt(OrdersPath(t)) == InOrders
  {
  }

  lemma OrdersPlain(t: OrdersTab)
    ensures Plain(OrdersPath(t))
  {
  }

  lemma OrdersDiffers(t: OrdersTab, u: OrdersTab)
    requires OrdersPath(t) == OrdersPath(u)
    ensures t == u
  {
  }

  lemma ShipmentsShape(t: ShipmentsTab)
    ensures Shape(ShipmentsPath(t)) && AreaAt(ShipmentsPath(t)) == InShipments
  {
  }

  lemma ShipmentsPlain(t: ShipmentsTab)
    ensures Plain(ShipmentsPath(t))
  {
  }

  lemma ShipmentsDiffers(t: ShipmentsTab, u: ShipmentsTab)
    requires ShipmentsPath(t) == ShipmentsPath(u)
    ensures t == u
  {
  }

  lemma SalesDocumentsShape(t: SalesDocumentsTab)
    ensures Shape(SalesDocumentsPath(t)) && AreaAt(SalesDocumentsPath(t)) == InSalesDocuments
  {
  }

  lemma SalesDocumentsPlain(t: SalesDocumentsTab)
    ensures Plain(SalesDocumentsPath(t))
  {
  }

  lemma SalesDocumentsDiffers(t: SalesDocumentsTab, u: SalesDocumentsTab)
    requires SalesDocumentsPath(t) == SalesDocumentsPath(u)
    ensures t == u
  {
  }

  lemma SalesPartiesShape(t: SalesPartiesTab)
    ensures Shape(SalesPartiesPath(t)) && AreaAt(SalesPartiesPath(t)) == InSalesParties
  {
  }

  lemma SalesPartiesPlain(t: SalesPartiesTab)
    ensures Plain(SalesPartiesPath(t))
  {
  }

  lemma SalesPartiesDiffers(t: SalesPartiesTab, u: SalesPartiesTab)
    requires SalesPartiesPath(t) == SalesPartiesPath(u)
    ensures t == u
  {
  }

  lemma AccessShape(t: AccessTab)
    ensures Shape(AccessPath(t)) && AreaAt(AccessPath(t)) == InAccess
  {
  }

  lemma AccessPlain(t: AccessTab)
    ensures Plain(AccessPath(t))
  {
  }

  lemma AccessDiffers(t: AccessTab, u: AccessTab)
    requires AccessPath(t) == AccessPath(u)
    ensures t == u
  {
  }

  lemma AccountingViewsShape(t: AccountingViewsTab)
    ensures Shape(AccountingViewsPath(t)) && AreaAt(AccountingViewsPath(t)) == InAccountingViews
  {
  }

  lemma AccountingViewsPlain(t: AccountingViewsTab)
    ensures Plain(AccountingViewsPath(t))
  {
  }

  lemma AccountingViewsDiffers(t: AccountingViewsTab, u: AccountingViewsTab)
    requires AccountingViewsPath(t) == AccountingViewsPath(u)
    ensures t == u
  {
  }

  lemma AccountingListsShape(t: AccountingListsTab)
    ensures Shape(AccountingListsPath(t)) && AreaAt(AccountingListsPath(t)) == InAccountingLists
  {
  }

  lemma AccountingListsPlain(t: AccountingListsTab)
    ensures Plain(AccountingListsPath(t))
  {
  }

  lemma AccountingListsDiffers(t: AccountingListsTab, u: AccountingListsTab)
    requires AccountingListsPath(t) == AccountingListsPath(u)
    ensures t == u
  {
  }

  lemma AccountingEntriesShape(t: AccountingEntriesTab)
    ensures Shape(AccountingEntriesPath(t)) && AreaAt(AccountingEntriesPath(t)) == InAccountingEntries
  {
  }

  lemma AccountingEntriesPlain(t: AccountingEntriesTab)
    ensures Plain(AccountingEntriesPath(t))
  {
  }

  lemma AccountingEntriesDiffers(t: AccountingEntriesTab, u: AccountingEntriesTab)
    requires AccountingEntriesPath(t) == AccountingEntriesPath(u)
    ensures t == u
  {
  }

  lemma FinanceRegistersShape(t: FinanceRegistersTab)
    ensures Shape(FinanceRegistersPath(t)) && AreaAt(FinanceRegistersPath(t)) == InFinanceRegisters
  {
  }

  lemma FinanceRegistersPlain(t: FinanceRegistersTab)
    ensures Plain(FinanceRegistersPath(t))
  {
  }

  lemma FinanceRegistersDiffers(t: FinanceRegistersTab, u: FinanceRegistersTab)
    requires FinanceRegistersPath(t) == FinanceRegistersPath(u)
    ensures t == u
  {
  }

  lemma FinanceLedgersShape(t: FinanceLedgersTab)
    ensures Shape(FinanceLedgersPath(t)) && AreaAt(FinanceLedgersPath(t)) == InFinanceLedgers
  {
  }

  lemma FinanceLedgersPlain(t: FinanceLedgersTab)
    ensures Plain(FinanceLedgersPath(t))
  {
  }

  lemma FinanceLedgersDiffers(t: FinanceLedgersTab, u: FinanceLedgersTab)
    requires FinanceLedgersPath(t) == FinanceLedgersPath(u)
    ensures t == u
  {
  }

  lemma FiscalShape(t: FiscalTab)
    ensures Shape(FiscalPath(t)) && AreaAt(FiscalPath(t)) == InFiscal
  {
  }

  lemma FiscalPlain(t: FiscalTab)
    ensures Plain(FiscalPath(t))
  {
  }

  lemma FiscalDiffers(t: FiscalTab, u: FiscalTab)
    requires FiscalPath(t) == FiscalPath(u)
    ensures t == u
  {
  }

  lemma SetupShape(t: SetupTab)
    ensures Shape(SetupPath(t)) && AreaAt(SetupPath(t)) == InSetup
  {
  }

  lemma SetupPlain(t: SetupTab)
    ensures Plain(SetupPath(t))
  {
  }

  lemma SetupDiffers(t: SetupTab, u: SetupTab)
    requires SetupPath(t) == SetupPath(u)
    ensures t == u
  {
  }

  lemma PathsHaveShape(t: NavTab)
    ensures Shape(AppPath(t)) && AreaAt(AppPath(t)) == AreaOf(t)
  {
    match t
    case Home(s) => HomeShape(s);
    case StockViews(s) => StockViewsShape(s);
    case StockFiles(s) => StockFilesShape(s);
    case Assets(s) => AssetsShape(s);
    case Catalogue(s) => CatalogueShape(s);
    case Consumption(s) => ConsumptionShape(s);
    case Transfers(s) => TransfersShape(s);
    case Orders(s) => OrdersShape(s);
    case Shipments(s) => ShipmentsShape(s);
    case SalesDocuments(s) => SalesDocumentsShape(s);
    case SalesParties(s) => SalesPartiesShape(s);
    case Access(s) => AccessShape(s);
    case AccountingViews(s) => AccountingViewsShape(s);
    case AccountingLists(s) => AccountingListsShape(s);
    case AccountingEntries(s) => AccountingEntriesShape(s);
    case FinanceRegisters(s) => FinanceRegistersShape(s);
    case FinanceLedgers(s) => FinanceLedgersShape(s);
    case Fiscal(s) => FiscalShape(s);
    case Setup(s) => SetupShape(s);
  }

  lemma PathsArePlain(t: NavTab)
    ensures Plain(AppPath(t))
  {
    match t
    case Home(s) => HomePlain(s);
    case StockViews(s) => StockViewsPlain(s);
    case StockFiles(s) => StockFilesPlain(s);
    case Assets(s) => AssetsPlain(s);
    case Catalogue(s) => CataloguePlain(s);
    case Consumption(s) => ConsumptionPlain(s);
    case Transfers(s) => TransfersPlain(s);
    case Orders(s) => OrdersPlain(s);
    case Shipments(s) => ShipmentsPlain(s);
    case SalesDocuments(s) => SalesDocumentsPlain(s);
    case SalesParties(s) => SalesPartiesPlain(s);
    case Access(s) => AccessPlain(s);
    case AccountingViews(s) => AccountingViewsPlain(s);
    case AccountingLists(s) => AccountingListsPlain(s);
    case AccountingEntries(s) => AccountingEntriesPlain(s);
    case FinanceRegisters(s) => FinanceRegistersPlain(s);
    case FinanceLedgers(s) => FinanceLedgersPlain(s);
    case Fiscal(s) => FiscalPlain(s);
    case Setup(s) => SetupPlain(s);
  }

  /** Every path is lower-case, opens with a slash and does not end with one. */
  lemma PathsAreCanonical(t: NavTab)
    ensures Plain(AppPath(t)) && Shape(AppPath(t)) && AreaAt(AppPath(t)) == AreaOf(t)
  {
    PathsHaveShape(t);
    PathsArePlain(t);
  }

  lemma ScreenIsCanonical(path: string)
    ensures ScreenAt(path).Some? ==> Plain(path) && Shape(path) && AreaAt(path) == AreaOf(ScreenAt(path).value)
  {
    if ScreenAt(path).Some? {
      ScreenOwns(path);
      PathsAreCanonical(ScreenAt(path).value);
    }
  }

  /** No two live screens share a path, so each is found under its own. */
  lemma EachScreenOwnsItsPath(t: NavTab)
    requires Live(t)
    ensures ScreenAt(AppPath(t)) == Some(t)
  {
    assert Owns(t, AppPath(t));
    OwnersAgree(t, ScreenAt(AppPath(t)).value, AppPath(t));
  }

  lemma OwnersAgree(t: NavTab, u: NavTab, path: string)
    requires Owns(t, path) && Owns(u, path)
    ensures t == u
  {
    PathsAreCanonical(t);
    PathsAreCanonical(u);
    match t
    case Home(s) => HomeDiffers(s, u.tabHome);
    case StockViews(s) => StockViewsDiffers(s, u.tabStockViews);
    case StockFiles(s) => StockFilesDiffers(s, u.tabStockFiles);
    case Assets(s) => AssetsDiffers(s, u.tabAssets);
    case Catalogue(s) => CatalogueDiffers(s, u.tabCatalogue);
    case Consumption(s) => ConsumptionDiffers(s, u.tabConsumption);
    case Transfers(s) => TransfersDiffers(s, u.tabTransfers);
    case Orders(s) => OrdersDiffers(s, u.tabOrders);
    case Shipments(s) => ShipmentsDiffers(s, u.tabShipments);
    case SalesDocuments(s) => SalesDocumentsDiffers(s, u.tabSalesDocuments);
    case SalesParties(s) => SalesPartiesDiffers(s, u.tabSalesParties);
    case Access(s) => AccessDiffers(s, u.tabAccess);
    case AccountingViews(s) => AccountingViewsDiffers(s, u.tabAccountingViews);
    case AccountingLists(s) => AccountingListsDiffers(s, u.tabAccountingLists);
    case AccountingEntries(s) => AccountingEntriesDiffers(s, u.tabAccountingEntries);
    case FinanceRegisters(s) => FinanceRegistersDiffers(s, u.tabFinanceRegisters);
    case FinanceLedgers(s) => FinanceLedgersDiffers(s, u.tabFinanceLedgers);
    case Fiscal(s) => FiscalDiffers(s, u.tabFiscal);
    case Setup(s) => SetupDiffers(s, u.tabSetup);
  }
}
