/**
 * The template settings panel: choosing an ISO marks the template dirty
 * only when the choice differs, and the form is saved when it is valid and
 * has an id. The form's internals are reduced to its validity, its dirty
 * flag and the id among its values.
 */
module TemplateSettings {
  import opened Wrappers
  import opened Models
  import DataSources

  /** The panel's form: validity, whether it was edited, and the `id` among its values. */
  datatype Form = Form(valid: bool, dirty: bool, id: int)

  /** Choosing the ISO at `path`: the updated template, and whether the choice changed it. */
  function IsoChoice(template: Template, path: string): (r: (Template, bool))
    ensures r.0 == template.(iso := path)
    ensures r.1 <==> template.iso != path
  {
    (template.(iso := path), template.iso != path)
  }

  /** Choosing the same ISO twice in a row leaves the template clean. */
  lemma SameIsoTwice(template: Template, path: string)
    ensures !IsoChoice(IsoChoice(template, path).0, path).1
    ensures IsoChoice(IsoChoice(template, path).0, path).0 == IsoChoice(template, path).0
  {
  }

  class TemplateSettingsComponent {
    var template: Template
    var isoDirty: bool
    var showingIsos: bool
    var form: Form
    const isoSource: DataSources.IsoDataSource

    constructor (template: Template, form: Form)
      ensures this.template == template && this.form == form
      ensures !isoDirty && !showingIsos
      ensures fresh(isoSource) && isoSource.topoId == template.workspaceGlobalId
    {
      this.template := template;
      this.form := form;
      isoDirty := false;
      showingIsos := false;
      isoSource := new DataSources.IsoDataSource(template.workspaceGlobalId);
    }

    /** Sends the form's values only when the form is valid and holds an id. */
    method Update() returns (request: Option<int>)
      ensures request.Some? <==> form.valid && form.id != 0
      ensures request.Some? ==> request.value == form.id
    {
      if form.valid && form.id != 0 {
        request := Some(form.id);
      } else {
        request := None;
      }
    }

    /** The update succeeded: the form is reset to its values and the ISO is no longer dirty. */
    method UpdateSucceeded()
      modifies this`form, this`isoDirty
      ensures form == old(form).(dirty := false)
      ensures !isoDirty
    {
      form := form.(dirty := false);
      isoDirty := false;
    }

    /** Whether there is something to save: a valid form that was edited or a changed ISO. */
    function NeedSaving(): (r: bool)
      reads this
      ensures !form.valid ==> !r
      ensures form.valid ==> (r <==> form.dirty || isoDirty)
    {
      (form.dirty || isoDirty) && form.valid
    }

    /** An ISO was chosen from the list. */
    method IsoChanged(iso: DataSources.IsoFile)
      modifies this`template, this`isoDirty, this`showingIsos
      ensures (template, isoDirty) == IsoChoice(old(template), iso.path)
      ensures !showingIsos
    {
      isoDirty := template.iso != iso.path;
      template := template.(iso := iso.path);
      showingIsos := false;
    }
  }
}
