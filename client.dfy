/** What the browser side shares across pages: a file picked in an `<input type="file">`. */
module Client {

  /** A picked file: the name multer will store it under and the URL `URL.createObjectURL` gives it. */
  datatype LocalFile = LocalFile(name: string, objectUrl: string)

  /** The page the router is sent to. */
  datatype Navigation = Stay | NavigateTo(path: string)

  const DashboardPath: string := "/dashboard"
}
