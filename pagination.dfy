/** Pagination records shared by the CRUD layer (src/common/pagination.model.ts). */
module Pagination {
  import opened Wrappers

  /** What the controller extracts from the query string. */
  datatype PaginationQuery = PaginationQuery(page: int, limit: int, sortBy: Option<string>, descending: bool)

  datatype PaginationMetadata = PaginationMetadata(page: int, limit: int, total: nat, totalPages: nat)

  datatype PaginatedResponse<T> = PaginatedResponse(items: seq<T>, pagination: PaginationMetadata)
}
