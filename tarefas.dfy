/**
 * The persistent task screen: the task store with new tasks at the front,
 * a millisecond creation stamp, and write-through to the `@tarefas` slot
 * that stays off until the initial load has finished.
 */
module Tarefas {
  import opened Wrappers
  import opened TaskStore
  import Storage

  /** `{ id, texto, concluida, criadaEm }` with `criadaEm` in milliseconds. */
  type Tarefa = Task<int>

  /** The storage key the screen reads and writes. */
  const TasksKey := "@tarefas"

  class TarefasScreen {
    /** The text input (`conteudo`). */
    var input: string
    var tasks: seq<Tarefa>
    /** True until the initial read of the slot has finished. */
    var loading: bool
    const slot: Storage.Slot<Tarefa>

    /** The slot holds exactly the tasks on screen. */
    predicate Mirrored()
      reads this, slot
    {
      slot.contents == Some(tasks)
    }

    /** Mounting: empty input, no tasks, loading; the mount-time run of the
        save effect sees `loading` and writes nothing. */
    constructor (slot: Storage.Slot<Tarefa>)
      requires slot.key == TasksKey
      ensures this.slot == slot && input == [] && tasks == [] && loading
      ensures unchanged(slot)
    {
      this.slot := slot;
      input, tasks, loading := [], [], true;
    }

    /** The save effect, run whenever `tasks` or `loading` has changed: while
        loading it does nothing, afterwards it writes the whole list. */
    method SaveEffect(writeOk: bool)
      modifies slot
      ensures slot.contents == if !loading && writeOk then Some(tasks) else old(slot.contents)
    {
      if !loading {
        slot.Write(tasks, writeOk);
      }
    }

    /** The mount-time load: a stored list replaces the (empty) list, and
        `loading` becomes false whether the read succeeds or fails. The save
        effect then runs once because `loading` changed, so after a failed
        read the current (empty) list is written over the slot. */
    method Load(readOk: bool, writeOk: bool)
      requires loading
      modifies this, slot
      ensures !loading && input == old(input)
      ensures tasks == if readOk && old(slot.contents).Some? then old(slot.contents).value else old(tasks)
      ensures slot.contents == if writeOk then Some(tasks) else old(slot.contents)
    {
      var stored := slot.Read(readOk);
      if stored.Some? {
        tasks := stored.value;
      }
      loading := false;
      SaveEffect(writeOk);
    }

    /** `onChangeText={setConteudo}`. */
    method SetInput(text: string)
      modifies this
      ensures input == text && tasks == old(tasks) && loading == old(loading)
    {
      input := text;
    }

    /** `adicionarTarefa`: on at least three trimmed characters, prepends the
        new task and clears the input; otherwise nothing changes. */
    method AddTask(id: string, now: int, writeOk: bool) returns (accepted: bool)
      modifies this, slot
      ensures accepted == Accepts(old(input))
      ensures tasks == Add(old(tasks), old(input), id, now, Front)
      ensures input == if accepted then [] else old(input)
      ensures loading == old(loading)
      ensures slot.contents == if accepted && !loading && writeOk then Some(tasks) else old(slot.contents)
    {
      accepted := Accepts(input);
      if !accepted {
        return;
      }
      tasks := Add(tasks, input, id, now, Front);
      input := [];
      SaveEffect(writeOk);
    }

    /** `removerTarefa`: drops every task with this id. */
    method RemoveTask(id: string, writeOk: bool)
      modifies this, slot
      ensures tasks == Remove(old(tasks), id)
      ensures input == old(input) && loading == old(loading)
      ensures slot.contents == if !loading && writeOk then Some(tasks) else old(slot.contents)
    {
      tasks := Remove(tasks, id);
      SaveEffect(writeOk);
    }

    /** The task item's delete button: asks first, and removes only on
        confirmation (the exit animation only delays the removal). */
    method ConfirmRemove(id: string, confirmed: bool, writeOk: bool)
      modifies this, slot
      ensures tasks == if confirmed then Remove(old(tasks), id) else old(tasks)
      ensures input == old(input) && loading == old(loading)
      ensures slot.contents == if confirmed && !loading && writeOk then Some(tasks) else old(slot.contents)
    {
      if confirmed {
        RemoveTask(id, writeOk);
      }
    }

    /** `toggleTarefa`: flips `concluida` on every task with this id. */
    method ToggleTask(id: string, writeOk: bool)
      modifies this, slot
      ensures tasks == Toggle(old(tasks), id)
      ensures input == old(input) && loading == old(loading)
      ensures slot.contents == if !loading && writeOk then Some(tasks) else old(slot.contents)
    {
      tasks := Toggle(tasks, id);
      SaveEffect(writeOk);
    }

    /** The header's three figures: active, completed and total. */
    method Stats() returns (active: nat, completed: nat, total: nat)
      ensures active == ActiveCount(tasks) && completed == CompletedCount(tasks)
      ensures total == |tasks| && active + completed == total
    {
      active, completed, total := ActiveCount(tasks), CompletedCount(tasks), |tasks|;
      CountsPartition(tasks);
    }
  }

  /** A restart: a fresh screen on the same slot, after a successful read,
      shows exactly the tasks the previous screen had mirrored. */
  method Restart(previous: TarefasScreen, writeOk: bool) returns (screen: TarefasScreen)
    requires previous.slot.key == TasksKey && previous.Mirrored()
    modifies previous.slot
    ensures screen.slot == previous.slot && !screen.loading
    ensures screen.tasks == old(previous.tasks)
  {
    screen := new TarefasScreen(previous.slot);
    screen.Load(true, writeOk);
  }
}
