/** The three modal stores: which dialog is open and what it is about. */
module ModalStores {
  import opened Common
  import opened ClientTypes

  datatype ModalMode = CreateMode | EditMode

  /** `usePropertyModalStore`. */
  class PropertyModalStore {
    var isOpen: bool
    var mode: ModalMode
    var propertyToEdit: Option<ClientProperty>

    constructor ()
      ensures !isOpen && mode == CreateMode && propertyToEdit == None
    {
      isOpen, mode, propertyToEdit := false, CreateMode, None;
    }

    /** `openModal(mode, property)`; an omitted property is `None`. */
    method OpenModal(m: ModalMode, property: Option<ClientProperty>)
      modifies this
      ensures isOpen && mode == m && propertyToEdit == property
    {
      isOpen, mode, propertyToEdit := true, m, property;
    }

    /** `closeModal`: closed and no property left behind; the mode stays. */
    method CloseModal()
      modifies this
      ensures !isOpen && propertyToEdit == None
      ensures mode == old(mode)
    {
      isOpen, propertyToEdit := false, None;
    }
  }

  datatype PropertyInfo = PropertyInfo(id: string, name: string)

  /** `usePropertyTraceModalStore`. */
  class TraceModalStore {
    var isOpen: bool
    var propertyInfo: Option<PropertyInfo>

    constructor ()
      ensures !isOpen && propertyInfo == None
    {
      isOpen, propertyInfo := false, None;
    }

    /** `openModal(id, name)`: whatever was shown before is replaced. */
    method OpenModal(id: string, name: string)
      modifies this
      ensures isOpen && propertyInfo == Some(PropertyInfo(id, name))
    {
      isOpen, propertyInfo := true, Some(PropertyInfo(id, name));
    }

    method CloseModal()
      modifies this
      ensures !isOpen && propertyInfo == None
    {
      isOpen, propertyInfo := false, None;
    }
  }

  /** `useOwnerModalStore`: `isOpen` is its only state. */
  class OwnerModalStore {
    var isOpen: bool

    constructor ()
      ensures !isOpen
    {
      isOpen := false;
    }

    method OpenModal()
      modifies this
      ensures isOpen
    {
      isOpen := true;
    }

    method CloseModal()
      modifies this
      ensures !isOpen
    {
      isOpen := false;
    }
  }
}
