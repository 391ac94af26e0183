/** The records the admin panel exchanges with the REST server
    (src/types/index.ts), restricted to the fields the modelled logic reads,
    and the roles and screen paths several parts of the panel share. */
module Types {
  import opened Wrappers

  /** A user account. `id` and `role` are optional properties in the source;
      `role` is an open string on the wire even though only "USER" and "ADMIN"
      are meant. */
  datatype User = User(id: Option<int>, username: string, role: Option<string>)

  /** A stock record: the quantity held of one product. */
  datatype Stock = Stock(quantity: int)

  /** A product as the pages read it: its optional id, its name and its
      optional nested stock record, as in src/types/index.ts. `supplier` is not
      a field of that declaration (which has `supplierId`): it is the value of
      the dashboard's access `p.supplier?.id`, absent when the nested supplier
      object or its id is missing. The other fields are left out. */
  datatype Product = Product(id: Option<int>, name: string, supplier: Option<int>, stock: Option<Stock>)

  const AdminRole: string := "ADMIN"
  const UserRole: string := "USER"

  /** The login screen, target of every redirect of an anonymous visitor. */
  const LoginPath: string := "/auth/login"
  /** The dashboard, where a login lands and a non-admin is sent back to. */
  const DashboardPath: string := "/dashboard"
}
