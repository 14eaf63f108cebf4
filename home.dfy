/**
 * The earlier task screen: the same task store, but new tasks go to the
 * back, tasks carry no timestamp, nothing is persisted, and removal asks
 * for confirmation in the handler itself.
 */
module Home {
  import opened TaskStore

  /** `{ id, texto, concluida }`: no creation stamp. */
  type Tarefa = Task<()>

  class HomeScreen {
    /** The text input (`conteudo`). */
    var input: string
    var tasks: seq<Tarefa>

    constructor ()
      ensures input == [] && tasks == []
    {
      input, tasks := [], [];
    }

    /** `onChangeText={setConteudo}`. */
    method SetInput(text: string)
      modifies this
      ensures input == text && tasks == old(tasks)
    {
      input := text;
    }

    /** `adicionarTarefa`: on at least three trimmed characters, appends the
        new task and clears the input; otherwise nothing changes. */
    method AddTask(id: string) returns (accepted: bool)
      modifies this
      ensures accepted == Accepts(old(input))
      ensures tasks == Add(old(tasks), old(input), id, (), Back)
      ensures input == if accepted then [] else old(input)
    {
      accepted := Accepts(input);
      if !accepted {
        return;
      }
      tasks := Add(tasks, input, id, (), Back);
      input := [];
    }

    /** `removerTarefa`: asks first; only "Remover" drops the tasks with this id. */
    method RemoveTask(id: string, confirmed: bool)
      modifies this
      ensures tasks == if confirmed then Remove(old(tasks), id) else old(tasks)
      ensures input == old(input)
    {
      if confirmed {
        tasks := Remove(tasks, id);
      }
    }

    /** `toggleTarefa`: flips `concluida` on every task with this id. */
    method ToggleTask(id: string)
      modifies this
      ensures tasks == Toggle(old(tasks), id)
      ensures input == old(input)
    {
      tasks := Toggle(tasks, id);
    }
  }
}
