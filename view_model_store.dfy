/** The view-model registry (src/main/kotlin/viewModels/ViewModelStore.kt) and the
    lifecycle part of its base class (src/main/kotlin/viewModels/MyBaseViewModel.kt). */
module ViewModelStores {
  import opened Wrappers

  /** The concrete view-model classes a caller can ask for. */
  datatype ViewModelKind = MainKind | SettingsKind | SignupKind | LoginKind

  /** `T::class.java.name`: the class's fully qualified name. */
  function ClassName(k: ViewModelKind): string {
    match k
    case MainKind => "viewModels.MainViewModel"
    case SettingsKind => "viewModels.SettingsViewModel"
    case SignupKind => "viewModels.SignupViewModel"
    case LoginKind => "viewModels.LoginViewModel"
  }

  /** Distinct classes have distinct names, so each kind's default key is its own. */
  lemma ClassNameIdentifies(k: ViewModelKind, j: ViewModelKind)
    requires ClassName(k) == ClassName(j)
    ensures k == j
  {
  }

  /** `MyBaseViewModel` as far as the store sees it: its class, and whether `clear()`
      has cancelled its coroutine scope. */
  class BaseViewModel {
    const kind: ViewModelKind
    var cancelled: bool

    /** `newInstance()`: a live view model of the given class. */
    constructor (kind: ViewModelKind)
      ensures this.kind == kind && !cancelled
    {
      this.kind := kind;
      cancelled := false;
    }

    /** `clear()`: the scope is cancelled (`onCleared` does nothing in the base class). */
    method Clear()
      modifies this
      ensures cancelled
    {
      cancelled := true;
    }
  }

  /** The reasons `getViewModel` can fail: the instance stored under the key is of
      another class, and the `as T` cast throws. */
  datatype StoreError = ClassCast(stored: ViewModelKind, requested: ViewModelKind)

  class ViewModelStore {
    var viewModels: map<string, BaseViewModel>

    constructor ()
      ensures viewModels == map[]
    {
      viewModels := map[];
    }

    /** `getViewModel<T>(key)`: `getOrPut` then `as T`. A present key returns what is
        stored and leaves the map alone (failing when its class is not `T`); an absent
        key gets exactly one new instance of `T`, which is stored and returned. */
    method GetViewModel(kind: ViewModelKind, key: string) returns (r: Result<BaseViewModel, StoreError>)
      modifies this
      ensures key in old(viewModels) ==> viewModels == old(viewModels)
      ensures key in old(viewModels) && old(viewModels)[key].kind == kind ==>
        r == Success(old(viewModels)[key])
      ensures key in old(viewModels) && old(viewModels)[key].kind != kind ==>
        r == Failure(ClassCast(old(viewModels)[key].kind, kind))
      ensures key !in old(viewModels) ==>
        && r.Success? && fresh(r.value) && r.value.kind == kind && !r.value.cancelled
        && viewModels == old(viewModels)[key := r.value]
        && |viewModels| == |old(viewModels)| + 1
    {
      var vm: BaseViewModel;
      if key in viewModels {
        vm := viewModels[key];
      } else {
        vm := new BaseViewModel(kind);
        viewModels := viewModels[key := vm];
      }
      if vm.kind == kind {
        r := Success(vm);
      } else {
        r := Failure(ClassCast(vm.kind, kind));
      }
    }

    /** `getViewModel<T>()` with the default key, the class name: a second call for the
        same class finds the first call's instance. */
    method GetDefaultViewModel(kind: ViewModelKind) returns (r: Result<BaseViewModel, StoreError>)
      modifies this
      ensures ClassName(kind) in old(viewModels) && old(viewModels)[ClassName(kind)].kind == kind ==>
        viewModels == old(viewModels) && r == Success(old(viewModels)[ClassName(kind)])
      ensures ClassName(kind) !in old(viewModels) ==>
        && r.Success? && fresh(r.value) && r.value.kind == kind
        && viewModels == old(viewModels)[ClassName(kind) := r.value]
      ensures r.Success? ==> ClassName(kind) in viewModels && viewModels[ClassName(kind)] == r.value
    {
      r := GetViewModel(kind, ClassName(kind));
    }

    /** `clear()`: every stored view model is cleared, then the map is emptied. */
    method Clear()
      modifies this, viewModels.Values
      ensures viewModels == map[]
      ensures forall v :: v in old(viewModels).Values ==> v.cancelled
    {
      var remaining := viewModels.Values;
      while remaining != {}
        invariant remaining <= old(viewModels).Values && viewModels == old(viewModels)
        invariant forall v :: v in old(viewModels).Values - remaining ==> v.cancelled
        decreases remaining
      {
        var v :| v in remaining;
        v.Clear();
        remaining := remaining - {v};
      }
      viewModels := map[];
    }
  }
}
