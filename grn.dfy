/**
 * The Global Resource Name record the authorization stage builds, and the
 * schema handles the request-validation decorators store. How a GRN is
 * printed (`grn:partition:system:region:tenantId:resource`) and checked
 * belongs to an external library and is a parameter of the model.
 */
module Grns {
  /** IdmAuthGrn. */
  datatype Grn = Grn(partition: string, system: string, region: string, tenantId: string, resource: string)

  /** An opaque zod schema, identified by name. */
  datatype Schema = Schema(name: string)
}
