/** The render context handed to every template (cmd/web/template_data.go). */
module TemplateContext {

  datatype TemplateData = TemplateData(
    title: string,
    headerText: string,
    formErrors: map<string, string>,
    formData: map<string, string>)

  /** The defaults every handler starts from before setting its own title and header. */
  function NewTemplateData(): (d: TemplateData)
    ensures d.title == "Default Title"
    ensures d.headerText == "Default HeaderText"
    ensures d.formErrors == map[] && d.formData == map[]
  {
    TemplateData("Default Title", "Default HeaderText", map[], map[])
  }
}
