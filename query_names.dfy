/**
 * The parameter names the clients' query builders write, each one a plain
 * identifier: no `=` and no `&`, so that it reads back as written.
 */
module QueryNames {
  import opened QueryParams

  const SiteId: string := "siteId"
  const DepartmentId: string := "departmentId"
  const ProjectId: string := "projectId"
  const MachineId: string := "machineId"
  const ProductId: string := "productId"
  const SupplierId: string := "supplierId"
  const CustomerId: string := "customerId"
  const SalespersonUserId: string := "salespersonUserId"
  const StatusCode: string := "statusCode"
  const DateFrom: string := "dateFrom"
  const DateTo: string := "dateTo"
  const Page: string := "page"
  const PageSize: string := "pageSize"
  const SortBy: string := "sortBy"
  const SortDirection: string := "sortDirection"
  const FromDate: string := "fromDate"
  const ToDate: string := "toDate"
  const StockBinId: string := "stockBinId"

  lemma IdNamesPlain()
    ensures Plain(SiteId) && Plain(DepartmentId) && Plain(ProjectId) && Plain(MachineId)
    ensures Plain(ProductId) && Plain(SupplierId) && Plain(CustomerId) && Plain(SalespersonUserId)
  {
    SiteNamesPlain();
    PartnerNamesPlain();
  }

  lemma SiteNamesPlain()
    ensures Plain(SiteId) && Plain(DepartmentId) && Plain(ProjectId) && Plain(MachineId)
  {
  }

  lemma PartnerNamesPlain()
    ensures Plain(ProductId) && Plain(SupplierId) && Plain(CustomerId) && Plain(SalespersonUserId)
  {
  }

  lemma FilterNamesPlain()
    ensures Plain(StatusCode) && Plain(DateFrom) && Plain(DateTo) && Plain(FromDate) && Plain(ToDate)
    ensures Plain(StockBinId)
  {
  }

  lemma PagingNamesPlain()
    ensures Plain(Page) && Plain(PageSize) && Plain(SortBy) && Plain(SortDirection)
  {
  }
}
