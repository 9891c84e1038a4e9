# C4AI-Architect core, modelled in Dafny

C4AI-Architect reads a software repository, works out what it contains, and produces C4 architecture diagrams as PlantUML text. Its pipeline has these stages:

- **Scan.** Walk the repository and parse Dockerfiles, docker-compose files, Kubernetes manifests, Terraform files and Python sources.
- **Analyse.** Build a dependency graph and a knowledge graph, and optionally ask a language model for descriptions, relationships and system boundaries.
- **Assemble.** Build a C4 model: system context, containers, components and relationships.
- **Render.** Turn that model, or the knowledge graph, into context, container and component diagrams.

This project models that deterministic core as Dafny values, functions and classes, and proves properties of the model. Each source module has its own Dafny module:

| Dafny module | source |
|---|---|
| `ArchitectureModel` | `src/models/architecture_model.py` |
| `KnowledgeGraph` | `src/knowledge_graph/graph_builder.py` |
| `AstParser` | `src/scanner/ast_parser.py` |
| `CodeParser` | `src/scanner/parsers/code_parser.py` |
| `DockerParser` | `src/scanner/parsers/docker_parser.py` |
| `RepositoryScanner` | `src/scanner/repository_scanner.py` |
| `RepositoryAnalyzer` | `modules/repository_analyzer.py` |
| `SemanticAnalysis` | `src/analyzer/semantic_analyzer.py` |
| `LlmEngine` | `src/analyzer/llm_engine.py` |
| `C4ModelBuilder` | `src/generator/c4_model_builder.py` |
| `C4Generator` | `src/c4/c4_generator.py` |
| `PlantUmlRenderer` | `src/renderer/plantuml_renderer.py` |
| `Orchestrator` | `src/orchestrator.py` |

Shared modules provide the rest:

- **`Wrappers`** — `Option`.
- **`Strings`** — the Python string and list operations used.
- **`Values`** — parsed JSON/YAML documents.
- **`PyDict`** — an insertion-ordered Python dict.
- **`Paths`** — the `pathlib` subset used.
- **`DiGraph`** — a networkx `DiGraph` as a value, with reachability and acyclicity.
- **`Config`** — the constants of `config.py`.
- **`PlantUml`** — the diagram text helpers.

How the model treats the parts of the Python code it cannot represent directly:

- **Exceptions.** A Python exception that a caller catches is an `Option` that is `None`.
- **Functions with an optional result.** Where such a function can also raise, the result is `Option<Option<T>>`, and the outer `None` means it raised.
- **State.** Objects whose methods update fields in place are Dafny classes with `modifies` clauses. Their loops are `while` loops proved against a specification function.
- **Outside services.** The language model, `json.loads` and `yaml.safe_load`, the file system and other external services are function parameters. They are oracles, so every property holds whatever they answer.

## Model

| member | source | states |
|---|---|---|
| ArchitectureModel.Container.ToElement | src/models/architecture_model.py:59-69 | the element view of a container keeps its id, name, type, description, technology, tags and properties |
| ArchitectureModel.Component.ToElement | src/models/architecture_model.py:85-95 | the element view of a component keeps its id, name, type, description, technology, tags and properties; the container id, source files and interfaces are dropped |
| ArchitectureModel.NewContainer | src/models/architecture_model.py:45-57 | a container built from id, name and description has every other field at its dataclass default: container type, no technology, no tags or properties, no runtime, empty ports, environment and dependencies |
| ArchitectureModel.NewComponent | src/models/architecture_model.py:72-83 | a component built from id, name, description and container id has every other field at its default: component type, no technology, no tags, properties, source files or interfaces |
| ArchitectureModel.C4Model.GetContainerById | src/models/architecture_model.py:108-110 | None exactly when no container has the id; otherwise the first container, in list order, that has it |
| ArchitectureModel.C4Model.GetComponentById | src/models/architecture_model.py:112-114 | None exactly when no component has the id; otherwise the first component that has it |
| ArchitectureModel.C4Model.GetSystemById | src/models/architecture_model.py:116-118 | None exactly when no system has the id; otherwise the first system that has it |
| ArchitectureModel.C4Model.GetComponentsByContainer | src/models/architecture_model.py:120-122 | a component is in the result exactly when it is one of the model's components with that container id; never longer than the component list |
| ArchitectureModel.C4Model.GetRelationshipsForElement | src/models/architecture_model.py:124-127 | a relationship is in the result exactly when it is one of the model's relationships whose source or target is the id |
| ArchitectureModel.ComponentsByContainerAppend | src/models/architecture_model.py:120-122 | appending components keeps the earlier matches, in order, before the new ones' matches (the filter keeps list order) |
| ArchitectureModel.RelationshipsForAppend | src/models/architecture_model.py:124-127 | appending relationships keeps the earlier matches, in order, before the new ones' matches |
| ArchitectureModel.GetContainerFirst | src/models/architecture_model.py:108-110 | whenever a container with the id is listed at some index, the lookup finds one, and no earlier container has that id |
| KnowledgeGraph.NodeProperties | src/knowledge_graph/graph_builder.py:38-44 | a node's properties hold exactly technology, ports, env_vars, endpoints and metadata, in that order; NodePropertiesValues gives the value of each |
| KnowledgeGraph.NodePropertiesValues | src/knowledge_graph/graph_builder.py:39-43 | each property holds the component's own field: technology, exposed ports, environment variables, endpoints and metadata |
| KnowledgeGraph.NodeOf | src/knowledge_graph/graph_builder.py:35-46 | the stored node takes the component's name as id, its kind as type, its properties dictionary, and the semantic context given |
| KnowledgeGraph.NodeAttrs | src/knowledge_graph/graph_builder.py:49-54 | the graph node's attributes are exactly the five properties, each holding the component's technology, exposed ports, environment variables, endpoints and metadata, plus semantic_purpose and business_capability taken from the context |
| KnowledgeGraph.EdgeOf | src/knowledge_graph/graph_builder.py:59-68 | the stored edge keeps the relationship's source, target and kind; a property is the semantic information's entry when it has that key, which overrides protocol and description, otherwise the relationship's protocol or description, and no other key is present |
| KnowledgeGraph.EdgePropertiesLookup | src/knowledge_graph/graph_builder.py:63-67 | an edge property is the semantic information's entry when it has the key, overriding protocol and description; otherwise the relationship's protocol or description, and nothing else |
| KnowledgeGraph.EntryPointsFrom | src/knowledge_graph/graph_builder.py:86-94 | a node is reported exactly when it is among the nodes scanned and its in-degree is 0 |
| KnowledgeGraph.EntryPointsExact | src/knowledge_graph/graph_builder.py:86-94 | the entry points are exactly the graph nodes that no edge enters |
| KnowledgeGraph.DataStores | src/knowledge_graph/graph_builder.py:96-104 | a node id is reported exactly when it is a key of the node map whose type is database, cache or storage |
| KnowledgeGraph.DataStoresIn | src/knowledge_graph/graph_builder.py:96-104 | over any list of keys, a key is kept exactly when its node is a data store |
| KnowledgeGraph.DataStoresSnoc | src/knowledge_graph/graph_builder.py:96-104 | scanning one more key appends it exactly when it is a data store, so the result keeps the node map's insertion order |
| KnowledgeGraph.PutAll | src/knowledge_graph/graph_builder.py:48 | a run of add_component calls keeps the node map well formed |
| KnowledgeGraph.PutAllMembers | src/knowledge_graph/graph_builder.py:48 | after a run of add_component calls the node map's keys are the earlier keys plus the names added |
| KnowledgeGraph.NodeCount | src/knowledge_graph/graph_builder.py:48 | re-adding a name replaces its node, so the node count is the number of distinct names |
| KnowledgeGraph.ContextValue | src/knowledge_graph/graph_builder.py:131-134 | a node without semantic context exports empty purpose and business_capability strings |
| KnowledgeGraph.Export | src/knowledge_graph/graph_builder.py:122-149 | the exported object has keys nodes then edges, one entry per node map key in insertion order and one per edge list element in order |
| KnowledgeGraph.KnowledgeGraphBuilder.constructor | src/knowledge_graph/graph_builder.py:27-30 | the builder starts with an empty graph, node map and edge list |
| KnowledgeGraph.KnowledgeGraphBuilder.AddComponent | src/knowledge_graph/graph_builder.py:32-54 | the node map entry under the name is replaced, the graph node is added or its attributes updated, and the edge list is unchanged; the builder invariant is kept |
| KnowledgeGraph.KnowledgeGraphBuilder.AddRelationship | src/knowledge_graph/graph_builder.py:56-75 | the edge list grows by exactly one edge, the graph gets the edge with the relationship's properties as attributes, both endpoints become graph nodes, and the node map is unchanged |
| KnowledgeGraph.KnowledgeGraphBuilder.IdentifyEntryPoints | src/knowledge_graph/graph_builder.py:86-94 | returns the graph's nodes, in order, that have no incoming edge |
| KnowledgeGraph.KnowledgeGraphBuilder.IdentifyDataStores | src/knowledge_graph/graph_builder.py:96-104 | returns the data-store keys of the node map, in insertion order |
| KnowledgeGraph.KnowledgeGraphBuilder.FindDependenciesChain | src/knowledge_graph/graph_builder.py:111-120 | [] for a name that is not a graph node; otherwise exactly the nodes other than the start reachable along one or more edges, with no duplicates |
| KnowledgeGraph.KnowledgeGraphBuilder.ExportToJson | src/knowledge_graph/graph_builder.py:122-149 | returns the exported data for the current node map and edge list |
| KnowledgeGraph.RepeatedEdgeOverwrites | src/knowledge_graph/graph_builder.py:71-75 | adding the same pair twice leaves one graph edge whose attributes are the second call's over the first's |
| AstParser.DetectTechnology | src/scanner/ast_parser.py:159-176 | "unknown" exactly when no keyword of the table occurs in the lowercased image; otherwise the technology of the first keyword, in table order, that occurs |
| AstParser.IntTokens | src/scanner/ast_parser.py:149-150 | the EXPOSE ports convert exactly when every token is an integer, one port per token in order |
| AstParser.DockerfileLine | src/scanner/ast_parser.py:140-155 | one line raises exactly when, once stripped, it is a FROM line with no argument or an EXPOSE line with a non-integer port; FROM records its argument as base_image and sets the technology it implies, EXPOSE appends its integer ports, an ENV with a name and a value sets that variable; nothing else changes, and any other line leaves the component as it was |
| AstParser.FromLine | src/scanner/ast_parser.py:143-146 | a FROM line raises exactly when it has no second token; otherwise base_image becomes that token, the technology the one it implies, and nothing else changes |
| AstParser.EnvLine | src/scanner/ast_parser.py:152-155 | an ENV line split at most twice sets variable parts[1] to parts[2] when it has three parts and changes nothing else; with fewer parts it changes nothing |
| AstParser.ParseDockerfile | src/scanner/ast_parser.py:124-157 | the line loop computes the line-by-line fold over the lines of the text, starting from a container named after the parent directory with technology docker |
| AstParser.DockerfileFails | src/scanner/ast_parser.py:140-157 | parsing a Dockerfile raises exactly when one of its stripped lines makes the line step raise |
| AstParser.DockerfileKeepsIdentity | src/scanner/ast_parser.py:129-157 | a parsed Dockerfile's component keeps the name and type it started with |
| AstParser.DockerfileTechnology | src/scanner/ast_parser.py:143-146 | the technology comes from the last FROM line's image; with no FROM line it stays docker |
| AstParser.DockerfilePorts | src/scanner/ast_parser.py:140-157 | the parsed ports are the starting ones followed by every EXPOSE line's integer ports, in file order |
| AstParser.DockerfileEnv | src/scanner/ast_parser.py:140-157 | each variable holds the value of the last ENV line that sets it, or its starting value when no line does |
| AstParser.DockerfileBaseImage | src/scanner/ast_parser.py:143-145 | the recorded base image is the argument of the last FROM line, or the starting one when there is none |
| AstParser.FieldOfEach | src/scanner/ast_parser.py:232-233 | `[p.get(key) for p in ps]` succeeds exactly when every element is a mapping, giving each element's value for the key (None when missing) in order |
| AstParser.DeployContainer | src/scanner/ast_parser.py:228-237 | one container of a Deployment sets the recorded image to its own image ('' when missing), appends each of its ports' containerPort values in order, and sets each env entry's value ('' when missing), the last entry of a name winning; name, type, technology and the other metadata stay |
| AstParser.EnvEntry | src/scanner/ast_parser.py:236-237 | an env entry raises exactly when it has no name; otherwise it sets the variable named by its name to its value ('' when missing) and leaves every other variable |
| AstParser.EnvEntriesLookup | src/scanner/ast_parser.py:236-237 | after the env loop a variable holds the value of the last entry naming it, or its earlier value when none does |
| AstParser.EnvEntriesLookupAll | src/scanner/ast_parser.py:236-237 | the same, for every variable at once |
| AstParser.DeployContainers | src/scanner/ast_parser.py:228-237 | the container loop keeps the component's name, type, technology, dependencies, endpoints and every metadata entry other than image |
| AstParser.DeploymentPorts | src/scanner/ast_parser.py:228-233 | the ports accumulate over the containers: the starting ones followed by each container's containerPort values, container by container |
| AstParser.DeploymentEnv | src/scanner/ast_parser.py:228-237 | variables accumulate over the containers, a later container's entry overriding an earlier one |
| AstParser.CollectField | src/scanner/ast_parser.py:232-233 | the port loop computes the list comprehension over the container's ports |
| AstParser.ApplyEnv | src/scanner/ast_parser.py:236-237 | the env loop computes the fold that writes each variable's value ('' when missing), raising on an entry without a name |
| AstParser.ParseContainer | src/scanner/ast_parser.py:228-237 | one iteration of the container loop computes the single-container step |
| AstParser.ParseDeployment | src/scanner/ast_parser.py:205-239 | the Deployment parser computes the fold of the container step over the pod template's containers from the component built of the metadata |
| AstParser.DeploymentLastImage | src/scanner/ast_parser.py:228-237 | after the container loop the recorded image is the last container's, the ports are the earlier ones followed by every container's containerPort values in order, and each variable has the value its last setting container gave it |
| AstParser.DeploymentOf | src/scanner/ast_parser.py:205-239 | a parsed Deployment is a kubernetes service named after the manifest ('unknown' by default), with no dependencies or endpoints, whose metadata records kind Deployment, the namespace ('default' by default) and the labels (`{}` by default); its ports are every container's containerPort values in order, its image entry is the last container's image ('' by default, absent without containers), and each variable has the value of the last container setting it; it fails when the manifest, its metadata or the path to the containers is not made of mappings |
| AstParser.DeploymentImage | src/scanner/ast_parser.py:228-229 | after the container loop the image entry is the last container's image, or the earlier one when there are no containers |
| AstParser.DeploymentMetadata | src/scanner/ast_parser.py:220-224 | the initial metadata holds kind Deployment, the namespace and the labels, and no image |
| AstParser.ServiceOf | src/scanner/ast_parser.py:241-259 | a Service parses exactly when the manifest, its metadata and its spec are mappings and every port entry is a mapping; the result is a kubernetes service named after the manifest ('unknown' when missing), exposing each port entry's port (None when missing, [] without ports), with no dependencies, variables or endpoints, and metadata kind Service, the spec's type ('ClusterIP' when missing) and its selector ({} when missing) |
| AstParser.StatefulSetOf | src/scanner/ast_parser.py:261-274 | parsing a StatefulSet succeeds exactly when the manifest and its metadata are mappings; the result is the kubernetes database named after the manifest ('unknown' by default) with no dependencies, ports, variables or endpoints and metadata kind StatefulSet only |
| AstParser.RuleEndpoints | src/scanner/ast_parser.py:284-285 | one rule's endpoints are built exactly when every path is a mapping, one endpoint per path |
| AstParser.IngressOf | src/scanner/ast_parser.py:276-296 | parsing an Ingress succeeds exactly when the manifest, its metadata and spec are mappings and the rules and their paths iterate; the result is the kubernetes ingress named after the manifest ('unknown' by default), exposing ports 80 and 443, with no dependencies or variables, metadata kind Ingress, and the rules' host-plus-path endpoints |
| AstParser.RuleEndpointsAt | src/scanner/ast_parser.py:284-285 | the k-th endpoint of a rule is the host followed by the k-th path's `path` ('' when missing) |
| AstParser.RuleEndpointsMembers | src/scanner/ast_parser.py:283-285 | an endpoint of a rule is exactly the host followed by one of its paths' path |
| AstParser.RulesEndpointsMembers | src/scanner/ast_parser.py:282-285 | an Ingress endpoint is exactly an endpoint of one of its rules |
| AstParser.CollectEndpoints | src/scanner/ast_parser.py:284-285 | the path loop computes the endpoints of one rule |
| AstParser.ParseRule | src/scanner/ast_parser.py:283-285 | one iteration of the rule loop computes the rule's endpoints from its host and http paths |
| AstParser.CollectRules | src/scanner/ast_parser.py:282-285 | the rule loop computes the concatenation of every rule's endpoints, in order |
| AstParser.ParseIngress | src/scanner/ast_parser.py:276-296 | the Ingress parser computes the Ingress component, endpoints included |
| AstParser.ManifestComponents | src/scanner/ast_parser.py:188-201 | an empty document yields no component and a non-mapping one raises; a Deployment, Service, StatefulSet or Ingress yields the one component its parser gives and raises when that parser does; every other kind yields nothing |
| AstParser.ParseManifest | src/scanner/ast_parser.py:188-201 | one iteration of the document loop dispatches on kind to the four parsers and skips every other kind |
| AstParser.ParseManifests | src/scanner/ast_parser.py:181-203 | the document loop computes the components of all the documents, in order |
| AstParser.ManifestsCount | src/scanner/ast_parser.py:181-203 | a file yields one component per non-empty document of kind Deployment, Service, StatefulSet or Ingress |
| AstParser.ManifestOne | src/scanner/ast_parser.py:188-201 | a document yields exactly one component if it is non-empty and of a parsed kind, and none otherwise |
| AstParser.ResourceOf | src/scanner/ast_parser.py:321-384 | the resource parser returns its own None exactly for a resource type it does not know, and raises exactly for a known type whose configuration is not a mapping; aws_instance gives an aws_ec2 compute component with instance_type and ami, aws_rds_instance an aws_rds database on the configured port (5432 by default) with engine and instance_class, aws_elasticache_cluster an aws_elasticache cache with engine and node_type, aws_lb an aws_alb load_balancer on 80 and 443 with its type; each keeps the name and has no dependencies, variables or endpoints |
| AstParser.CollectResources | src/scanner/ast_parser.py:310-317 | the loop over the resources of one type computes the recognised components, in order |
| AstParser.ParseTerraform | src/scanner/ast_parser.py:301-319 | the loop over resource types and names computes the recognised components of the configuration, in order |
| AstParser.TerraformKinds | src/scanner/ast_parser.py:301-319 | every component of a Terraform configuration is a compute, database, cache or load_balancer component |
| AstParser.TerraformOf | src/scanner/ast_parser.py:301-319 | a configuration without a resource block has no components; when it parses, its resource block is a mapping, its components are exactly the components _parse_resource returns for the resources of every type, one per recognised resource, and each is a compute, database, cache or load_balancer one |
| AstParser.ResourcesOfTypeMembers | src/scanner/ast_parser.py:310-317 | the resources of one type parse exactly when _parse_resource raises on none of them; the components are then exactly those it returns, and there are as many as the resources it recognises |
| AstParser.ResourceTypesMembers | src/scanner/ast_parser.py:309-317 | a resource block parses exactly when every type maps to a dictionary whose resources parse; its components are then exactly the recognised resources of every type, one per resource |
| AstParser.ResourcesOfTypeKinds | src/scanner/ast_parser.py:310-317 | every component of one resource type is one of those four kinds |
| CodeParser.OldEnvPair | src/scanner/parsers/code_parser.py:38-49 | the older parser records a variable exactly when the line has at least three tokens and the one after ENV contains '='; the key is that token's text before its first '=', and the pair is the one the newer parser records |
| CodeParser.OldLine | src/scanner/parsers/code_parser.py:33-53 | one line of the older loop keeps the environment a well-formed dict |
| CodeParser.OldLineNone | src/scanner/parsers/code_parser.py:38-51 | one line of the older loop raises exactly when it is a FROM or WORKDIR line without an argument |
| CodeParser.OldLines | src/scanner/parsers/code_parser.py:33-53 | the older line loop keeps the environment well formed |
| CodeParser.ParseDockerfileOld | src/scanner/parsers/code_parser.py:20-55 | the older parse_dockerfile's loop computes the line fold over the lines of the text from the empty info |
| CodeParser.AnyFailsExists | src/scanner/parsers/code_parser.py:33-53 | the recursive "some line fails" test holds exactly when some line fails |
| CodeParser.OldFails | src/scanner/parsers/code_parser.py:33-53 | the older parser raises exactly when one of the lines is a FROM or WORKDIR line without an argument |
| CodeParser.OldFailsAny | src/scanner/parsers/code_parser.py:33-53 | the older parser raises exactly when the recursive failure test holds |
| CodeParser.OldAgreesWithNew | src/scanner/parsers/code_parser.py:20-55 | where the older parser does not raise, it finds the same base image, ports, commands and working directory as the newer parse_dockerfile; only the environment can differ |
| CodeParser.OldLineAgrees | src/scanner/parsers/code_parser.py:33-53 | one line of each parser keeps those shared facts equal |
| CodeParser.ResourceOf | src/scanner/parsers/code_parser.py:104-110 | a document becomes a resource exactly when it and its metadata are mappings; the kind is the document's (None when missing) and the namespace defaults to "default" |
| CodeParser.ParseResources | src/scanner/parsers/code_parser.py:93-113 | the document loop computes the resources of the non-empty documents, in order |
| CodeParser.ResourcesCount | src/scanner/parsers/code_parser.py:100-111 | one resource per non-empty document |
| CodeParser.ContainerEntry | src/scanner/parsers/code_parser.py:125-131 | one container's entry is built exactly when the container is a mapping |
| CodeParser.ContainerEntryFields | src/scanner/parsers/code_parser.py:125-131 | the entry of a mapping holds the container's name and image (None when missing), ports and env ([] when missing) and resources ({} when missing), in that order |
| CodeParser.ContainerEntries | src/scanner/parsers/code_parser.py:124-131 | one entry per container |
| CodeParser.ContainerEntriesAt | src/scanner/parsers/code_parser.py:124-131 | the entries exist exactly when every container is a mapping, and the k-th entry is the k-th container's |
| CodeParser.ContainersOf | src/scanner/parsers/code_parser.py:115-133 | a kind other than Deployment, StatefulSet, DaemonSet or Pod yields no containers |
| CodeParser.ExtractContainers | src/scanner/parsers/code_parser.py:115-133 | extract_containers computes the entries of the pod specification's containers |
| CodeParser.CollectContainers | src/scanner/parsers/code_parser.py:124-131 | the container loop computes one entry per container, raising on a non-mapping container |
| CodeParser.EntriesStep | src/scanner/parsers/code_parser.py:124-131 | one step of the container loop: a failing container makes the loop raise, otherwise its entry comes first |
| CodeParser.PodSpecSource | src/scanner/parsers/code_parser.py:119-122 | a Pod's containers come from its own spec; the other three kinds take them from spec.template.spec |
| CodeParser.NamedEntries | src/scanner/parsers/code_parser.py:155-160 | one entry per resource of a type, in order: the k-th is {type, name, config} for the type and the k-th resource name and its configuration |
| CodeParser.ResourceEntries | src/scanner/parsers/code_parser.py:154-160 | the resource entries are built exactly when every type's resources are a mapping |
| CodeParser.ResourceEntriesMembers | src/scanner/parsers/code_parser.py:154-160 | an entry is listed exactly when it is {type, name, config} for some type of the first block and one of its resource names |
| CodeParser.ModuleEntries | src/scanner/parsers/code_parser.py:163-168 | the module entries are built exactly when every module configuration is a mapping; then one per module, in order, each with the module's name, its configuration's source (None when missing) and the configuration |
| CodeParser.CollectNamed | src/scanner/parsers/code_parser.py:155-160 | the inner resource loop computes the type's entries |
| CodeParser.ParseInfrastructure | src/scanner/parsers/code_parser.py:141-170 | the Terraform parse computes the resources of the first resource block and the modules of the first module block |
| CodeParser.CollectResources | src/scanner/parsers/code_parser.py:154-160 | the loop over resource types computes every type's entries, in order |
| CodeParser.CollectModules | src/scanner/parsers/code_parser.py:163-168 | the module loop computes one entry per module, in order |
| CodeParser.ResourceEntriesCount | src/scanner/parsers/code_parser.py:154-160 | one resource entry per named resource of every type |
| CodeParser.FirstBlockOnly | src/scanner/parsers/code_parser.py:154 | only the first block of a repeated `resource` key is read: dropping the later blocks changes nothing |
| CodeParser.Callee | src/scanner/parsers/code_parser.py:220-221 | unwrapping calls ends at an expression that is not a call |
| CodeParser.DecoratorNameCallee | src/scanner/parsers/code_parser.py:217-224 | a decorator is named after its innermost callee: the name's id or the attribute's name |
| DockerParser.InfoStart | src/scanner/parsers/docker_parser.py:33-39 | the starting info has an empty, well-formed environment |
| DockerParser.Classify | src/scanner/parsers/docker_parser.py:41-67 | a stripped line is blank or a comment, FROM, EXPOSE, ENV, WORKDIR or RUN/CMD/ENTRYPOINT exactly as its prefix says, with the argument, digit runs, pair or text that branch reads |
| DockerParser.EnvPair | src/scanner/parsers/docker_parser.py:52-60 | an ENV line gives a pair exactly when it splits into at least three parts; when the token after ENV contains '=' it is split at its first '=', otherwise the pair is that token and the rest of the line |
| DockerParser.EnvSingleAssignmentIgnored | src/scanner/parsers/docker_parser.py:52-54 | a line `ENV K=V` with nothing after the assignment records no variable |
| DockerParser.Apply | src/scanner/parsers/docker_parser.py:46-67 | applying one instruction keeps the environment well formed |
| DockerParser.InfoLine | src/scanner/parsers/docker_parser.py:41-67 | one line keeps the environment well formed |
| DockerParser.InfoLines | src/scanner/parsers/docker_parser.py:41-67 | the line loop keeps the environment well formed |
| DockerParser.ParseDockerfile | src/scanner/parsers/docker_parser.py:24-69 | parse_dockerfile computes the line fold over the lines of the file from the empty info; an unreadable file gives the empty result |
| DockerParser.KeywordsExclusive | src/scanner/parsers/docker_parser.py:46-67 | the branches of the line loop exclude one another in their order, and a keyword line is never skipped |
| DockerParser.InfoLineFields | src/scanner/parsers/docker_parser.py:46-67 | one line sets the base image only on FROM with an argument and the working directory only on WORKDIR with one, appends digit runs only on EXPOSE and the line only on a command, and puts the ENV pair into the environment only on an ENV line that gives one |
| DockerParser.DockerfileBaseImage | src/scanner/parsers/docker_parser.py:46-49 | the base image is the argument of the last FROM line that has one |
| DockerParser.DockerfileWorkdir | src/scanner/parsers/docker_parser.py:62-65 | the working directory is the argument of the last WORKDIR line that has one |
| DockerParser.DockerfilePorts | src/scanner/parsers/docker_parser.py:50-52 | the exposed ports are the digit runs of every EXPOSE line, in file order |
| DockerParser.DockerfileCommands | src/scanner/parsers/docker_parser.py:66-67 | the commands are the RUN, CMD and ENTRYPOINT lines, in file order |
| DockerParser.DockerfileEnvironment | src/scanner/parsers/docker_parser.py:41-67 | a variable is defined exactly when it was before or some ENV line gives it, and its value is that of the last such line |
| DockerParser.PortStrings | src/scanner/parsers/docker_parser.py:94-101 | every port entry that gives a string (a scalar, or a mapping's published value) is kept and nothing else is, never more entries than ports |
| DockerParser.EnvFromMapping | src/scanner/parsers/docker_parser.py:106-107 | a mapping environment defines exactly its keys, each with its value converted to text, the last entry of a key winning |
| Values.LastField | src/scanner/parsers/docker_parser.py:106-107 | the last entry under a key exists exactly when the key is in the mapping |
| Values.MergeFieldsLookup | src/analyzer/semantic_analyzer.py:154 | after merging entries into a dict each key holds the last value the entries give it, or its old value |
| Values.UpdatePair | src/analyzer/semantic_analyzer.py:154 | an item of a sequence given to dict.update unpacks exactly when it is a two-element list with a string key, a two-character string or a mapping with two keys; the key and value are its two elements, its two characters or its two keys |
| Values.DictUpdate | src/analyzer/semantic_analyzer.py:154 | dict.update succeeds exactly for a mapping, the empty string, or a sequence whose every item unpacks; a mapping is merged in, and an empty string or list changes nothing |
| Values.DictUpdateLookup | src/analyzer/semantic_analyzer.py:154 | after an update each key holds the last value the mapping or the pairs give it, or its old value; a string update changes nothing |
| DockerParser.EnvFromList | src/scanner/parsers/docker_parser.py:108-112 | a list environment keeps the dict well formed |
| DockerParser.EnvFromListKeys | src/scanner/parsers/docker_parser.py:108-112 | a list environment defines exactly the keys of its items that contain '=', each with the text after the first '=' of the last item naming it |
| DockerParser.LastListItem | src/scanner/parsers/docker_parser.py:108-112 | the last item naming a key exists exactly when some item containing '=' names it |
| DockerParser.EnvFromListAt | src/scanner/parsers/docker_parser.py:108-112 | after the list loop a key is defined exactly when it was before or some item names it, with the text after the first '=' of the last such item |
| DockerParser.EnvironmentOf | src/scanner/parsers/docker_parser.py:104-112 | every environment shape gives a well-formed dict |
| DockerParser.Displays | src/scanner/parsers/docker_parser.py:118 | `[str(d) for d in deps]`, one string per item |
| DockerParser.DependsOnOf | src/scanner/parsers/docker_parser.py:115-120 | a mapping gives its keys, a list the text of each item, anything else [] |
| DockerParser.BuildContextOf | src/scanner/parsers/docker_parser.py:122-128 | a string build is the context; a mapping gives its context, else its dockerfile, else None; anything else None |
| DockerParser.ListEntry | src/scanner/parsers/docker_parser.py:137-138 | volumes and networks are kept only when they are lists, otherwise [] |
| DockerParser.ServiceOf | src/scanner/parsers/docker_parser.py:93-139 | a service parses exactly when its ports iterate; the service carries its name, its image (None by default), the build context, the ports as strings, the environment, the depends_on names, and the volumes and networks lists |
| DockerParser.ServicesOf | src/scanner/parsers/docker_parser.py:89-139 | the services loop keeps the result a well-formed dict |
| DockerParser.ComposeOf | src/scanner/parsers/docker_parser.py:71-141 | an unreadable, empty or non-mapping document gives {}; a services entry that is not a mapping raises, and otherwise the result is the services loop over its entries; every result is a well-formed dict |
| DockerParser.ComposeServices | src/scanner/parsers/docker_parser.py:89-91 | a parsed compose file has a service exactly for each key of its services mapping whose value is a mapping, and each service is named by its key |
| DockerParser.CollectPorts | src/scanner/parsers/docker_parser.py:94-101 | the ports loop computes the port strings |
| DockerParser.PortStringsStep | src/scanner/parsers/docker_parser.py:95-101 | one step of the ports loop appends the entry's string when it gives one |
| DockerParser.CollectEnvList | src/scanner/parsers/docker_parser.py:108-112 | the list-environment loop computes the fold from the empty dict |
| DockerParser.ParseService | src/scanner/parsers/docker_parser.py:93-139 | one iteration of the services loop computes the service from its configuration |
| DockerParser.ParseCompose | src/scanner/parsers/docker_parser.py:71-141 | parse_compose computes the services dict of the loaded document |
| DockerParser.ServicesKeys | src/scanner/parsers/docker_parser.py:89-91 | the services dict holds exactly the names whose configuration is a mapping |
| DockerParser.ServicesNamed | src/scanner/parsers/docker_parser.py:130-131 | every service is stored under its own name |
| RepositoryScanner.Comprehension | src/scanner/repository_scanner.py:105 | a filtering list comprehension is never longer than its input |
| RepositoryScanner.ComprehensionMembers | src/scanner/repository_scanner.py:105 | an item is in a filtering comprehension exactly when some kept input maps to it |
| RepositoryScanner.Requirements | src/scanner/repository_scanner.py:103-105 | the requirements list has at most one entry per line |
| RepositoryScanner.RequirementsMembers | src/scanner/repository_scanner.py:103-105 | an entry is listed exactly when it is the stripped text of a non-blank line that does not start with '#'; no entry is empty |
| RepositoryScanner.IndentedCommentKept | src/scanner/repository_scanner.py:105 | the '#' test is made on the unstripped line, so an indented comment is kept as a requirement |
| RepositoryScanner.GoRequires | src/scanner/repository_scanner.py:119-121 | the go.mod list has at most one entry per line |
| RepositoryScanner.GoRequiresMembers | src/scanner/repository_scanner.py:119-121 | an entry is listed exactly when it is the stripped text of a line that starts with "require" once stripped |
| RepositoryScanner.PackageJson | src/scanner/repository_scanner.py:107-113 | a package.json is read exactly when its data is an object, giving dependencies and devDependencies in that order, each {} when missing |
| RepositoryScanner.IsKubernetesManifest | src/scanner/repository_scanner.py:94-101 | a file is a Kubernetes manifest exactly when it loads to a mapping with a "kind" key; a load failure gives False |
| RepositoryScanner.Glob | src/scanner/repository_scanner.py:77 | a glob never finds more files than there are |
| RepositoryScanner.GlobMembers | src/scanner/repository_scanner.py:77 | a file is found for an extension exactly when it is a repository file whose name ends with it |
| RepositoryScanner.GlobAllMembers | src/scanner/repository_scanner.py:75-77 | a file is found for a language exactly when its name ends with one of the language's extensions |
| RepositoryScanner.SourceCodeFrom | src/scanner/repository_scanner.py:74-79 | the language map stays a well-formed dict |
| RepositoryScanner.CollectLanguage | src/scanner/repository_scanner.py:75-77 | the extension loop collects every file of each extension, extension by extension |
| RepositoryScanner.ScanSourceCode | src/scanner/repository_scanner.py:64-79 | the language loop computes the language map over the five languages of the table |
| RepositoryScanner.SourceCodeKeys | src/scanner/repository_scanner.py:74-79 | a language is a key exactly when it was already one or some table entry for it has files |
| RepositoryScanner.SourceCodeFrame | src/scanner/repository_scanner.py:74-79 | a language outside the table keeps its entry, or its absence |
| RepositoryScanner.SourceCodeValue | src/scanner/repository_scanner.py:74-79 | with distinct languages, a language with files maps to all its files |
| RepositoryScanner.LanguagesDistinct | src/scanner/repository_scanner.py:66-72 | the table's five languages are distinct |
| RepositoryScanner.ScanLanguages | src/scanner/repository_scanner.py:64-79 | a table language is a key of the scan exactly when it has files, and then maps to all its files |
| RepositoryAnalyzer.AnyPattern | modules/repository_analyzer.py:76-78 | the pattern loop finds a match exactly when one of the remaining patterns occurs in the path |
| RepositoryAnalyzer.ShouldIgnore | modules/repository_analyzer.py:71-91 | a path is ignored exactly when an ignore pattern occurs in it, or it is a file that is not a Dockerfile or compose file and whose lowercased suffix is not a supported extension |
| RepositoryAnalyzer.FirstCategory | modules/repository_analyzer.py:103-105 | the category search finds nothing exactly when no category lists the suffix; otherwise it stops at the first category, in table order, that does |
| RepositoryAnalyzer.CategorizeFile | modules/repository_analyzer.py:93-107 | Dockerfile and compose names (any case) are infra; otherwise the first category listing the lowercased suffix, else docs; the result is always a configured category name |
| RepositoryAnalyzer.AppCodeSuffixes | modules/repository_analyzer.py:101-105 | a file whose suffix is an app_code extension is categorised app_code, the first category |
| RepositoryAnalyzer.Take | modules/repository_analyzer.py:122 | `content[:n]` is a prefix of the content of length min(n, its length) |
| RepositoryAnalyzer.Drop | modules/repository_analyzer.py:145 | the prefix and the rest together give back the text |
| RepositoryAnalyzer.BaseImageFirst | modules/repository_analyzer.py:143-146 | the base image comes from the first FROM line, whatever FROM lines follow |
| RepositoryAnalyzer.ScanBaseImage | modules/repository_analyzer.py:143-146 | the loop that stops at the first FROM line computes the base image of the text's lines |
| RepositoryAnalyzer.BaseImageAt | modules/repository_analyzer.py:143-146 | the search's first FROM line gives the base image |
| RepositoryAnalyzer.BaseImageNone | modules/repository_analyzer.py:143-146 | with no FROM line there is no base image |
| RepositoryAnalyzer.ComposeServices | modules/repository_analyzer.py:127-132 | services are listed only for a document that loads to a mapping with a services entry |
| RepositoryAnalyzer.ExtractMetadata | modules/repository_analyzer.py:109-151 | the metadata records the content length, the category and the file name; the type is dependencies exactly for the six dependency file names, with a 500-character preview; services only for compose files; a base image only for Dockerfiles; the type is dockerfile exactly for a file named Dockerfile |
| RepositoryAnalyzer.IsNewUnit | modules/repository_analyzer.py:243-272 | a line starts a new unit only for the eight extensions with heuristics |
| RepositoryAnalyzer.Step | modules/repository_analyzer.py:234-305 | one line either stays in the open chunk, or closes it: before the line when it starts a unit (the line opens the next chunk), or with the line when the text is over the size limit; an empty open chunk never closes; a chunk closed by a unit start within the size limit has at least 10 lines |
| RepositoryAnalyzer.FlattenSnoc | modules/repository_analyzer.py:293-297 | appending a chunk appends its lines |
| RepositoryAnalyzer.PlacedSnoc | modules/repository_analyzer.py:276-297 | a non-empty chunk placed right after the earlier ones keeps the chunks placed |
| RepositoryAnalyzer.GoodExtend | modules/repository_analyzer.py:234 | adding the line to the open chunk keeps the loop invariant: closed and open chunks together are the lines seen |
| RepositoryAnalyzer.GoodCutUnit | modules/repository_analyzer.py:278-302 | closing the chunk before a unit start keeps the invariant |
| RepositoryAnalyzer.GoodCutSize | modules/repository_analyzer.py:282-305 | closing the chunk with an oversized line keeps the invariant |
| RepositoryAnalyzer.StepGood | modules/repository_analyzer.py:233-305 | every iteration keeps the invariant |
| RepositoryAnalyzer.RunGood | modules/repository_analyzer.py:233-305 | the whole loop keeps the invariant |
| RepositoryAnalyzer.PlacedLast | modules/repository_analyzer.py:276-297 | the last closed chunk ends at the last line covered |
| RepositoryAnalyzer.PlacedConsecutive | modules/repository_analyzer.py:276-305 | closed chunks are non-empty, the first starts at line 0, and each starts right after the previous one ends |
| RepositoryAnalyzer.FinishPartition | modules/repository_analyzer.py:308-322 | closing the open chunk after the loop partitions the lines: every line in exactly one non-empty chunk, in order |
| RepositoryAnalyzer.HeuristicPartition | modules/repository_analyzer.py:226-324 | for any non-empty text, the chunks cover every line exactly once, in order, with consecutive line numbers; the last chunk's end line is the line count, or one less when it was closed inside the loop |
| RepositoryAnalyzer.ChunkByHeuristics | modules/repository_analyzer.py:226-324 | the chunking loop computes the heuristic chunks of the text's lines for the file's lowercased extension |
| RepositoryAnalyzer.FrameworksIn | modules/repository_analyzer.py:501-510 | a technology is detected exactly when its keyword (express, react, django, flask, spring) occurs in the text |
| RepositoryAnalyzer.ChunkServices | modules/repository_analyzer.py:493-495 | only compose chunks contribute services |
| RepositoryAnalyzer.DependencyFrameworks | modules/repository_analyzer.py:498-510 | a dependencies chunk contributes exactly the frameworks whose keyword occurs in its lowercased content |
| RepositoryAnalyzer.SummaryStep | modules/repository_analyzer.py:484-515 | one chunk adds its technologies and services and, for an app_code file named main or index, its path to the entry points; external dependencies are never filled |
| RepositoryAnalyzer.AddServices | modules/repository_analyzer.py:494-495 | the services loop adds every service name |
| RepositoryAnalyzer.AddFrameworks | modules/repository_analyzer.py:500-510 | the framework tests add exactly the frameworks found in the text |
| RepositoryAnalyzer.AddChunk | modules/repository_analyzer.py:486-515 | one iteration of the chunk loop computes the summary step |
| RepositoryAnalyzer.ExtractRepositoryMetadata | modules/repository_analyzer.py:475-521 | the chunk loop computes the repository summary of all the chunks |
| RepositoryAnalyzer.SummaryEntryCount | modules/repository_analyzer.py:513-515 | one entry point per qualifying chunk, duplicates included |
| RepositoryAnalyzer.SummaryEntryPoints | modules/repository_analyzer.py:513-515 | a path is an entry point exactly when some chunk of an app_code file named main or index has it |
| RepositoryAnalyzer.FrameworksNotDocker | modules/repository_analyzer.py:501-510 | no framework name looks like a Docker image entry |
| RepositoryAnalyzer.ChunkDocker | modules/repository_analyzer.py:489-490 | a chunk contributes "Docker: image" exactly when it is a Dockerfile chunk with that base image |
| RepositoryAnalyzer.SummaryDockerImages | modules/repository_analyzer.py:484-490 | the summary lists "Docker: image" exactly when some chunk is a Dockerfile chunk with that base image |
| SemanticAnalysis.DockerfileContainer | src/analyzer/semantic_analyzer.py:68-79 | a Dockerfile's container is named after the parent directory, with id "container_" + that name; its technology is the parse's base image ('' for an unreadable file, None when no FROM was seen), its ports the parse's exposed ports ([] for an unreadable file), and it records the parent directory as its source path |
| SemanticAnalysis.ComposeContainer | src/analyzer/semantic_analyzer.py:84-93 | a compose service's container has id "container_" + the service name, no source path, and the service's depends_on |
| SemanticAnalysis.ServiceContainers | src/analyzer/semantic_analyzer.py:84-93 | one container per service, in the dict's order |
| SemanticAnalysis.FileContainers | src/analyzer/semantic_analyzer.py:67-93 | a file named Dockerfile gives exactly its one container; a file neither Dockerfile nor docker-compose gives none |
| SemanticAnalysis.ContainersOfStep | src/analyzer/semantic_analyzer.py:67-93 | a file whose parse raises makes the analysis raise; otherwise its containers come before the rest |
| SemanticAnalysis.PrependPrepend | src/analyzer/semantic_analyzer.py:72-85 | appending two files' containers in turn is appending them together |
| SemanticAnalysis.ContainersOfAt | src/analyzer/semantic_analyzer.py:67-93 | the step of the file loop at any index: the containers so far, then the file's, then the rest |
| SemanticAnalysis.AnalyzeDocker | src/analyzer/semantic_analyzer.py:63-95 | the file loop computes the containers of all the Docker files, in order, or raises when a parse raises |
| SemanticAnalysis.ReadDockerFile | src/analyzer/semantic_analyzer.py:68-93 | one iteration of the file loop computes the file's containers |
| SemanticAnalysis.AddServices | src/analyzer/semantic_analyzer.py:84-93 | the service loop appends one container per service |
| SemanticAnalysis.ContainersNamed | src/analyzer/semantic_analyzer.py:72-93 | every container's id is "container_" + its name |
| SemanticAnalysis.MatchFileToContainer | src/analyzer/semantic_analyzer.py:176-182 | None exactly when no container has a source path that prefixes the file path; otherwise the id of the first one, in list order, that does |
| SemanticAnalysis.ComposeNeverMatches | src/analyzer/semantic_analyzer.py:178-181 | a compose container, which has no source path, is never the match unless another container shares its id |
| SemanticAnalysis.CodeInfo | src/analyzer/semantic_analyzer.py:144-154 | the details are None when the parse or the read raises; text of 10000 characters or more keeps the parse result; shorter text needs a mapping parse result and a structure reply dict.update accepts, and is the result updated with the reply |
| SemanticAnalysis.EmptyReplyKeepsInfo | src/analyzer/semantic_analyzer.py:152-154 | a structure reply [] or "" keeps the parse result and the file still yields its component |
| SemanticAnalysis.PairReplyMerged | src/analyzer/semantic_analyzer.py:152-154 | a structure reply [[k, v]] is merged in as the pair: the details map k to v |
| SemanticAnalysis.ComponentOf | src/analyzer/semantic_analyzer.py:144-169 | a file yields a component exactly when its details are computed, and the component carries those details, id "component_" + the file stem, the stem as name, the language, the file path and the matched container |
| SemanticAnalysis.ComponentsOfStep | src/analyzer/semantic_analyzer.py:137-143 | a language with a parser contributes its files' components before the rest; any other language is skipped |
| SemanticAnalysis.AnalyzeCode | src/analyzer/semantic_analyzer.py:133-174 | the language loop computes the components of every language that has a parser |
| SemanticAnalysis.AnalyzeFiles | src/analyzer/semantic_analyzer.py:143-172 | the file loop appends the components of the files whose parse does not raise |
| SemanticAnalysis.FilesComponentsShape | src/analyzer/semantic_analyzer.py:143-172 | every component of a language carries that language, its stem-derived id and name, and the container its path matches |
| SemanticAnalysis.ComponentsShape | src/analyzer/semantic_analyzer.py:133-174 | every component is well formed in that sense |
| SemanticAnalysis.UnregisteredSkipped | src/analyzer/semantic_analyzer.py:138-139 | a language without a parser adds no component |
| SemanticAnalysis.ContainerNodes | src/analyzer/semantic_analyzer.py:187-188 | one node per container, under its id |
| SemanticAnalysis.ComponentNodes | src/analyzer/semantic_analyzer.py:190-191 | one node per component, under its id |
| SemanticAnalysis.DependsOnLists | src/analyzer/semantic_analyzer.py:194-195 | each container's id paired with its depends_on |
| SemanticAnalysis.WithNode | src/analyzer/semantic_analyzer.py:188 | add_node adds the node and no edge |
| SemanticAnalysis.WithEdgeIf | src/analyzer/semantic_analyzer.py:197-199 | a guarded add_edge adds the edge and its endpoints exactly when the guard holds |
| SemanticAnalysis.WithNodes | src/analyzer/semantic_analyzer.py:187-191 | the node loop adds exactly the named nodes and no edge |
| SemanticAnalysis.WithDependencies | src/analyzer/semantic_analyzer.py:195-199 | one container's depends_on adds an edge to "container_" + dep exactly for the deps already in the graph, and no node |
| SemanticAnalysis.WithAllDependencies | src/analyzer/semantic_analyzer.py:194-199 | the depends_on loop adds exactly the depends_on edges whose target is a graph node, and no node |
| SemanticAnalysis.WithDeployments | src/analyzer/semantic_analyzer.py:202-206 | the deployment loop adds exactly the component-to-container edges of components with a truthy container id |
| SemanticAnalysis.ClassNames | src/analyzer/semantic_analyzer.py:217-218 | the class names are read exactly when every class entry has a name, one name per entry in order |
| SemanticAnalysis.WithClasses | src/analyzer/semantic_analyzer.py:217-218 | registering classes keeps the module map well formed |
| SemanticAnalysis.WithClassesEntries | src/analyzer/semantic_analyzer.py:217-218 | after registering a component's classes, each of them maps to the component and every other name keeps its owner |
| SemanticAnalysis.WithClassesSnoc | src/analyzer/semantic_analyzer.py:217-218 | registering one more class is one more dict write |
| SemanticAnalysis.PutClasses | src/analyzer/semantic_analyzer.py:217-218 | the class loop raises exactly when some class has no name, otherwise it writes every class name to the component's id |
| SemanticAnalysis.BuildModuleMap | src/analyzer/semantic_analyzer.py:214-218 | the module map loop raises exactly when some component's classes cannot be read, otherwise it builds the map of the class declarations |
| SemanticAnalysis.ClassDeclsFails | src/analyzer/semantic_analyzer.py:215-218 | once a component's classes cannot be read, the whole map raises |
| SemanticAnalysis.ClassDeclsSnoc | src/analyzer/semantic_analyzer.py:215-218 | one more component adds its class list, or makes the map raise |
| SemanticAnalysis.ModuleMap | src/analyzer/semantic_analyzer.py:214-218 | the module map is a well-formed dict |
| SemanticAnalysis.LastOwnerIsLast | src/analyzer/semantic_analyzer.py:215-218 | a class's owner is the last component, in order, that declares it; with no owner no component declares it |
| SemanticAnalysis.ModuleMapOwner | src/analyzer/semantic_analyzer.py:214-218 | a class name is in the module map exactly when some component declares it, and then it maps to the last one that does |
| SemanticAnalysis.WithImport | src/analyzer/semantic_analyzer.py:227-232 | one import raises exactly when the map is non-empty and `in` is not defined on it; otherwise it adds exactly the edges to the owners of names it contains, never a self edge |
| SemanticAnalysis.WithImports | src/analyzer/semantic_analyzer.py:225-232 | a component's imports raise exactly when the map is non-empty and one import does not support `in`; otherwise they add exactly the import edges |
| SemanticAnalysis.WithAllImports | src/analyzer/semantic_analyzer.py:221-232 | the import loop raises exactly when some component's imports raise; otherwise it adds exactly the import edges of all components |
| SemanticAnalysis.NoSelfImport | src/analyzer/semantic_analyzer.py:228 | no component gets an imports edge to itself |
| SemanticAnalysis.HitSome | src/analyzer/semantic_analyzer.py:227-228 | an import hits a target exactly when some module name with that target occurs in it |
| SemanticAnalysis.ModuleMapHit | src/analyzer/semantic_analyzer.py:214-228 | an import hits a component exactly when it contains a class name whose last declaring component that is |
| SemanticAnalysis.NamedAt | src/analyzer/semantic_analyzer.py:187-191 | every listed item is named |
| SemanticAnalysis.NodesStage | src/analyzer/semantic_analyzer.py:186-191 | the node stage adds exactly the container and component ids, and no edge |
| SemanticAnalysis.ContainersAreNodes | src/analyzer/semantic_analyzer.py:187-188 | every container is a node after the node stage |
| SemanticAnalysis.DependencyGraph | src/analyzer/semantic_analyzer.py:184-209 | building the graph raises exactly when the module map or an import raises; otherwise its edges are the old ones plus the depends_on edges whose target is a node, the deployed_in edges and the import edges |
| SemanticAnalysis.EdgeValues | src/analyzer/semantic_analyzer.py:265 | one entry per graph edge |
| SemanticAnalysis.ContainerValues | src/analyzer/semantic_analyzer.py:246 | each container as a dict, in order |
| SemanticAnalysis.ComponentValues | src/analyzer/semantic_analyzer.py:246 | each component as a dict, in order |
| SemanticAnalysis.DependencyStep | src/analyzer/semantic_analyzer.py:195-199 | one step of the depends_on loop adds the edge exactly when the target is a node |
| SemanticAnalysis.DeploymentStep | src/analyzer/semantic_analyzer.py:202-206 | one step of the deployment loop adds the edge exactly when the container id is truthy |
| SemanticAnalysis.LinkImportIn | src/analyzer/semantic_analyzer.py:227-232 | the loop over the module map computes one import's edges, or raises |
| SemanticAnalysis.ImportStepAt | src/analyzer/semantic_analyzer.py:227-232 | one step of that loop adds the edge exactly when the name is in the import and the target is another component |
| SemanticAnalysis.ImportFailsAt | src/analyzer/semantic_analyzer.py:228 | a step on an import without `in` raises |
| SemanticAnalysis.SemanticAnalyzer.constructor | src/analyzer/semantic_analyzer.py:14-25 | the analyzer starts with an empty dependency graph |
| SemanticAnalysis.SemanticAnalyzer.AddNodes | src/analyzer/semantic_analyzer.py:187-191 | the node loops give the node stage of the old graph |
| SemanticAnalysis.SemanticAnalyzer.AddDependencies | src/analyzer/semantic_analyzer.py:195-199 | one container's depends_on loop updates the graph to its dependencies stage |
| SemanticAnalysis.SemanticAnalyzer.AddDependsOn | src/analyzer/semantic_analyzer.py:194-199 | the depends_on loop updates the graph to its dependencies stage |
| SemanticAnalysis.SemanticAnalyzer.AddDeployments | src/analyzer/semantic_analyzer.py:202-206 | the deployment loop updates the graph to its deployments stage |
| SemanticAnalysis.SemanticAnalyzer.LinkImport | src/analyzer/semantic_analyzer.py:227-232 | one import updates the graph, or reports that it raised |
| SemanticAnalysis.SemanticAnalyzer.LinkImports | src/analyzer/semantic_analyzer.py:225-232 | a component's imports update the graph, or report that they raised |
| SemanticAnalysis.SemanticAnalyzer.AnalyzeCodeDependencies | src/analyzer/semantic_analyzer.py:211-232 | _analyze_code_dependencies updates the graph with the import edges, or reports that it raised |
| SemanticAnalysis.SemanticAnalyzer.BuildDependencyGraph | src/analyzer/semantic_analyzer.py:184-209 | _build_dependency_graph updates the graph to the dependency graph, or reports that it raised |
| SemanticAnalysis.SemanticAnalyzer.ExtractInsights | src/analyzer/semantic_analyzer.py:234-273 | the counts are the numbers of containers and components; the systems are the language model's boundaries, or the empty default; a non-zero depth needs a non-empty acyclic graph and is the depth of it; the patterns are the model's answer for a summary of exactly these elements and the graph's edges when there are elements, the grouping did not raise and every element is a mapping, and empty otherwise |
| SemanticAnalysis.SemanticAnalyzer.Analyze | src/analyzer/semantic_analyzer.py:27-61 | with the structure's attributes read under their declared names: analysis succeeds exactly when the Docker analysis and the graph build do not raise; it then returns the containers, the components matched against them, and insights counting both, and leaves the graph built from them |
| SemanticAnalysis.FirstMissing | src/analyzer/semantic_analyzer.py:39-52 | the first attribute read that the structure lacks is the position where analyze raises: none exactly when every read attribute is declared, and every earlier one is |
| SemanticAnalysis.AnalyzeRaisesAtKubernetes | src/analyzer/semantic_analyzer.py:43-44 | as written, analyze gets past docker_files and raises at k8s_files, an attribute RepositoryStructure does not declare |
| SemanticAnalysis.CorrectedReadsDeclared | src/scanner/repository_scanner.py:12-19 | reading kubernetes_files and source_code instead, every attribute analyze reads is declared |
| SemanticAnalysis.SemanticAnalyzer.AnalyzeAsWritten | src/analyzer/semantic_analyzer.py:27-61 | analyze as written never returns an analysis |
| LlmEngine.GenerateWithFallback | src/analyzer/llm_engine.py:34-46 | a failed call and a reply without a response both give "{}"; otherwise the response text |
| LlmEngine.TruncateCode | src/analyzer/llm_engine.py:50-52 | code of at most 8000 characters is sent unchanged; longer code is cut to its first 8000 characters followed by the truncation mark |
| LlmEngine.AnalyzeCodeStructure | src/analyzer/llm_engine.py:48-77 | the decoded reply to the structure prompt for the truncated code, or the five empty lists when the reply is not JSON |
| LlmEngine.StructureOnFailure | src/analyzer/llm_engine.py:36-46 | when the model call fails the structure is {}, not the five empty lists, because "{}" decodes |
| LlmEngine.RelationshipFallback | src/analyzer/llm_engine.py:105-109 | the fallback relationship has relationship_type the context, protocol unknown and description "context relationship", in that order |
| LlmEngine.InferRelationships | src/analyzer/llm_engine.py:79-109 | the decoded reply to the relationship prompt, or the fallback when the reply is not JSON |
| LlmEngine.FirstPieces | src/analyzer/llm_engine.py:133 | `description.split('.')[:2]` is one or two pieces, none containing a period |
| LlmEngine.JoinPrefix | src/analyzer/llm_engine.py:133-134 | joining the first pieces gives a prefix of joining them all |
| LlmEngine.StripSlice | src/analyzer/llm_engine.py:134 | a stripped text is a slice of the original |
| LlmEngine.LeadPrefix | src/analyzer/llm_engine.py:133-134 | the first two sentences joined form a prefix of the description |
| LlmEngine.LeadOneDot | src/analyzer/llm_engine.py:133-134 | the first two sentences joined contain at most one period |
| LlmEngine.BodyOneDot | src/analyzer/llm_engine.py:133-134 | once stripped, they still contain at most one period |
| LlmEngine.TwoSentences | src/analyzer/llm_engine.py:133-134 | the result is the stripped first two sentences followed by a period |
| LlmEngine.TwoSentencesDoublesPeriod | src/analyzer/llm_engine.py:133-134 | a one-sentence description ending in a period, "A.", comes back as "A.." |
| LlmEngine.TwoSentencesCorrected | src/analyzer/llm_engine.py:133-134 | the corrected result ends in exactly one period and is the two sentences, with a period added only when they do not already end in one |
| LlmEngine.TwoSentencesAgree | src/analyzer/llm_engine.py:133-134 | wherever the code as written does not double the period, the corrected result is the same |
| LlmEngine.FallbackDescription | src/analyzer/llm_engine.py:126-130 | the fallback starts with the name and " - ", ends with " in the system", and has the type in between; a missing name reads as Component and a missing type as component |
| LlmEngine.GenerateComponentDescription | src/analyzer/llm_engine.py:111-134 | a blank reply gives the fallback; otherwise the first two sentences of the stripped reply with a period added |
| LlmEngine.FailedDescriptionIsBraces | src/analyzer/llm_engine.py:122-134 | when the model call fails the description is "{}.", because the JSON fallback "{}" is not blank |
| LlmEngine.GenerateComponentDescriptionCorrected | src/analyzer/llm_engine.py:111-134 | a failed call or a missing response gives the fallback description; any other result is the fallback or ends in exactly one period |
| LlmEngine.DescribeText | src/analyzer/llm_engine.py:125-134 | an empty stripped reply gives the fallback; a non-empty one ends in exactly one period |
| LlmEngine.Simplified | src/analyzer/llm_engine.py:147-152 | a component is simplified exactly when it is a mapping, to id, name, type and technology in that order |
| LlmEngine.SimplifiedFields | src/analyzer/llm_engine.py:147-152 | each of those four fields is the component's value, or '' when missing |
| LlmEngine.SimplifyAll | src/analyzer/llm_engine.py:145-152 | the loop succeeds exactly when every component is a mapping, one simplified component per component in order |
| LlmEngine.IdentifySystemBoundaries | src/analyzer/llm_engine.py:136-191 | no components gives no systems; every result has a systems key; a component that cannot be simplified raises; a reply that is not JSON gives no systems; a decoded reply of at most the first 20 components, simplified, that contains systems is returned as it is, one that does not gives no systems, and one the membership test cannot be applied to raises |
| LlmEngine.BoundariesDefault | src/analyzer/llm_engine.py:184-191 | a reply that is not JSON, or has no systems key, gives no systems |
| LlmEngine.ContainerCount | src/analyzer/llm_engine.py:201 | the container count is defined exactly when every component is a mapping, and then it is the number of components whose type is container |
| LlmEngine.TechnologySet | src/analyzer/llm_engine.py:203-206 | the set is built exactly when every component is a mapping |
| LlmEngine.TechnologySetMembers | src/analyzer/llm_engine.py:203-206 | the set holds exactly the truthy technologies of the components |
| LlmEngine.TechnologySetStep | src/analyzer/llm_engine.py:203-206 | one more component adds its technology when it is truthy |
| LlmEngine.SubsetOfSize | src/analyzer/llm_engine.py:203-206 | a set has a subset of every smaller size, so `list(set)[:10]` exists whatever the set's order |
| LlmEngine.Summarize | src/analyzer/llm_engine.py:199-207 | the summary is built exactly when every component is a mapping; it counts the components, the containers and the relationships, and keeps min(10, n) of the n distinct truthy technologies |
| LlmEngine.AnalyzeArchitecturePatterns | src/analyzer/llm_engine.py:193-228 | no components gives no patterns and no prompt; otherwise it succeeds exactly when every component is a mapping, and returns the decoded reply to the summary's prompt, or the unknown pattern when the reply is not JSON |
| C4ModelBuilder.Len | src/generator/c4_model_builder.py:50-51 | `len` is defined exactly on lists, dicts and strings |
| C4ModelBuilder.LowerOf | src/generator/c4_model_builder.py:126-127 | `.lower()` is defined exactly on strings |
| C4ModelBuilder.Entries | src/generator/c4_model_builder.py:102 | a missing list entry reads as []; a non-mapping analysis raises |
| C4ModelBuilder.Slug | src/generator/c4_model_builder.py:58 | `name.lower().replace(' ', '_')` has the name's length, no space and no upper-case letter |
| C4ModelBuilder.SystemId | src/generator/c4_model_builder.py:58 | a system id is "system_" followed by the slug of its name, and has no space |
| C4ModelBuilder.BoundarySystems | src/generator/c4_model_builder.py:39-40 | an analysis without insights has no boundary systems |
| C4ModelBuilder.DefaultSystem | src/generator/c4_model_builder.py:42-54 | the default system is main_system, named after the model, a software system without tags or technology, described by generate_component_description on the name and the numbers of containers and components |
| C4ModelBuilder.GroupedSystem | src/generator/c4_model_builder.py:56-63 | a boundary entry gives a system exactly when its name is a string; the system has that name, the id "system_" + its slug, the entry's description (empty when absent) as text, no technology and no properties |
| C4ModelBuilder.GroupedSystems | src/generator/c4_model_builder.py:56-63 | the entry loop succeeds exactly when every entry gives a system, one system per entry in order |
| C4ModelBuilder.ContextSystemsShape | src/generator/c4_model_builder.py:37-63 | no boundary systems gives exactly the one main_system named after the model; otherwise exactly one system per boundary entry, in order, each with the id "system_" + its slug |
| C4ModelBuilder.TerraformPair | src/generator/c4_model_builder.py:73-77 | a resource without a type raises; RDS and ElastiCache give the external database, SQS and SNS the external messaging system |
| C4ModelBuilder.Collected | src/generator/c4_model_builder.py:70-87 | the set of pairs holds exactly the pairs found |
| C4ModelBuilder.ExternalElements | src/generator/c4_model_builder.py:90-98 | one external system per pair listed, in that order |
| C4ModelBuilder.ExternalsListed | src/generator/c4_model_builder.py:90-98 | listing each pair of the set once gives exactly one external system per pair, with id "external_" + its slug and the external tag |
| C4ModelBuilder.MatchedTechnologies | src/generator/c4_model_builder.py:141-146 | at most one technology per table entry; a technology is listed exactly when one of its keys occurs in the combined text; empty exactly when no key occurs |
| C4ModelBuilder.CombinedText | src/generator/c4_model_builder.py:126-141 | the combined text exists exactly when the container data is a mapping whose image and technology are strings |
| C4ModelBuilder.TechnologiesOf | src/generator/c4_model_builder.py:122-146 | the technologies are None exactly when no key of the table occurs in the combined text; otherwise exactly the technologies whose key occurs |
| C4ModelBuilder.ExtractTechnologies | src/generator/c4_model_builder.py:122-146 | _extract_technologies computes the container's technologies |
| C4ModelBuilder.MatchTable | src/generator/c4_model_builder.py:142-144 | the table loop collects the technologies matched, in table order |
| C4ModelBuilder.MatchedSnoc | src/generator/c4_model_builder.py:142-144 | one more table entry appends its technology exactly when its key occurs |
| C4ModelBuilder.PortsOf | src/generator/c4_model_builder.py:115 | a port is kept exactly when its text is all digits, as that number |
| C4ModelBuilder.MappedPortDropped | src/generator/c4_model_builder.py:115 | a mapped port such as "8080:80" is dropped |
| C4ModelBuilder.ContainerOf | src/generator/c4_model_builder.py:102-120 | a container is built only from a mapping with id and name; it keeps id and name as text, is a container element with the extracted technologies and the description generate_component_description gives |
| C4ModelBuilder.ContainerOfFields | src/generator/c4_model_builder.py:102-120 | a container is built exactly when the data is a mapping with id and name, its image and technology are strings and its ports can be iterated; it has no tags or properties; its runtime is the image, else the technology, else ''; its ports are the all-digit ports as numbers; its environment ({} when missing) and dependencies ([] when missing) are the entry's |
| C4ModelBuilder.ContainerOfFn | src/generator/c4_model_builder.py:102-120 | the per-entry function is the container conversion |
| C4ModelBuilder.ContainersIn | src/generator/c4_model_builder.py:102-120 | the level succeeds exactly when every entry converts, one container per entry in order |
| C4ModelBuilder.MakeContainer | src/generator/c4_model_builder.py:103-118 | one iteration of the container loop computes the container |
| C4ModelBuilder.BuildContainerLevel | src/generator/c4_model_builder.py:100-120 | the container level succeeds exactly when every container entry converts, and appends exactly those containers, changing nothing else |
| C4ModelBuilder.LanguageToTechnology | src/generator/c4_model_builder.py:171-181 | None exactly for a language outside python, java, javascript, typescript, go and csharp (any case); javascript and typescript are Node.js |
| C4ModelBuilder.LowerTwice | src/generator/c4_model_builder.py:181 | lowercasing twice is lowercasing once |
| C4ModelBuilder.LanguageCaseInsensitive | src/generator/c4_model_builder.py:171-181 | the mapping ignores the language's case |
| C4ModelBuilder.InterfaceNames | src/generator/c4_model_builder.py:166-167 | one interface per class entry, its name, in order |
| C4ModelBuilder.ComponentOf | src/generator/c4_model_builder.py:150-169 | a component needs the data's id and name; it keeps the container id ('' when missing), has its file path as the one source file, the language's technology, the class names as interfaces when the details list classes, else none, and the description generate_component_description gives for the entry |
| C4ModelBuilder.ComponentOfFn | src/generator/c4_model_builder.py:150-169 | the per-entry function is the component conversion |
| C4ModelBuilder.ComponentsIn | src/generator/c4_model_builder.py:150-169 | the level succeeds exactly when every entry converts, one component per entry in order |
| C4ModelBuilder.BuildComponentLevel | src/generator/c4_model_builder.py:148-169 | the component level succeeds exactly when every component entry converts, and appends exactly those components, changing nothing else |
| C4ModelBuilder.RelationshipOf | src/generator/c4_model_builder.py:187-205 | a relationship exists exactly when the inferred details are a mapping; it keeps the edge's source and target, its description is the details' description, or "<type> relationship" when missing, and its protocol and technology are both the details' protocol ('' when missing) |
| C4ModelBuilder.RelationshipOnBadReply | src/generator/c4_model_builder.py:195-205 | when the reply is not JSON, the relationship is described as "type relationship", with protocol and technology unknown |
| C4ModelBuilder.EdgeContextDefault | src/generator/c4_model_builder.py:188 | an edge without a relationship attribute has the type uses |
| C4ModelBuilder.BadReplyUses | src/generator/c4_model_builder.py:188-202 | such an edge with a bad reply is described as "uses relationship" |
| C4ModelBuilder.RelationshipFn | src/generator/c4_model_builder.py:187-205 | the per-edge function is the relationship conversion |
| C4ModelBuilder.RelationshipsIn | src/generator/c4_model_builder.py:187-207 | the loop succeeds exactly when every edge converts, one relationship per edge in the graph's edge order |
| C4ModelBuilder.BuildRelationships | src/generator/c4_model_builder.py:183-207 | the relationship pass succeeds exactly when every edge converts, and appends exactly those relationships, changing nothing else |
| C4ModelBuilder.RelationshipsFollowEdges | src/generator/c4_model_builder.py:187-205 | every relationship joins two nodes linked by an edge of the dependency graph |
| C4ModelBuilder.BuildContextLevel | src/generator/c4_model_builder.py:37-66 | the context level succeeds exactly when the context systems and the external pairs are read; it appends the context systems, then exactly one external system per distinct pair, changing nothing else |
| C4ModelBuilder.AppendContextSystems | src/generator/c4_model_builder.py:42-63 | the default or grouped systems are appended |
| C4ModelBuilder.AppendGroupedSystems | src/generator/c4_model_builder.py:56-63 | the loop over boundary entries appends one system per entry, raising when one has no string name |
| C4ModelBuilder.IdentifyExternalSystems | src/generator/c4_model_builder.py:68-98 | the external pass succeeds exactly when the pairs are read; it keeps the earlier systems, appends exactly one external system per distinct pair, and changes nothing else |
| C4ModelBuilder.AppendExternals | src/generator/c4_model_builder.py:90-98 | the loop appends one external system per pair, in the order taken |
| C4ModelBuilder.CollectedSnoc | src/generator/c4_model_builder.py:73-87 | one more pair found adds it to the set |
| C4ModelBuilder.CollectPairs | src/generator/c4_model_builder.py:73-87 | a collection loop raises exactly when one item raises, and otherwise collects the set of pairs found |
| C4ModelBuilder.Build | src/generator/c4_model_builder.py:14-35 | build succeeds exactly when every level does; the model is named after the repository with description "Architecture model for name", has no people, the context systems followed by one external system per distinct pair, and exactly the converted containers, components and relationships |
| C4ModelBuilder.BuildLevels | src/generator/c4_model_builder.py:18-30 | the first three levels give the same model as build, still without relationships |
| C4ModelBuilder.ImageFirstMatch | src/generator/c4_model_builder.py:81-87 | an image is classified by the first test it passes: postgres or mysql, then redis, then kafka or rabbitmq |
| C4ModelBuilder.Contributes | src/generator/c4_model_builder.py:73-87 | every pair an item gives is in the set |
| C4ModelBuilder.RdsAndPostgresTwice | src/generator/c4_model_builder.py:73-98 | an RDS resource together with a postgres container yields two distinct pairs whose systems share one id, external_database |
| C4ModelBuilder.PostgresImage | src/generator/c4_model_builder.py:82-83 | a postgres:15 image is a database |
| C4ModelBuilder.SlugDatabase | src/generator/c4_model_builder.py:92 | the slug of Database is database |
| C4ModelBuilder.CollectedOnce | src/generator/c4_model_builder.py:70-87 | finding the same pair many times yields it once |
| C4Generator.IsExternal | src/c4/c4_generator.py:153 | a node without metadata is not external |
| C4Generator.ExternalCheckAt | src/c4/c4_generator.py:152-159 | a node raises exactly when its external test raises; an external node gives the entry named after its id, with its purpose and "Uses" |
| C4Generator.ExternalCheckKeeps | src/c4/c4_generator.py:153-159 | an entry found belongs to a node tagged external and carries that node's id and purpose |
| C4Generator.ExternalStep | src/c4/c4_generator.py:152-159 | the per-node function is the external test |
| C4Generator.Externals | src/c4/c4_generator.py:147-161 | the external systems are found exactly when no node's test raises |
| C4Generator.ExternalsExact | src/c4/c4_generator.py:147-161 | an entry is listed exactly when it belongs to a node tagged external, with that node's id as id and name, its purpose and "Uses" |
| C4Generator.ActorsFrom | src/c4/c4_generator.py:168-180 | at most one actor, the fixed User, is found |
| C4Generator.ActorsFromExact | src/c4/c4_generator.py:169-178 | User is found exactly when some entry point is a frontend, API gateway or ingress node |
| C4Generator.ActorsExact | src/c4/c4_generator.py:163-180 | the actors are none or User; User exactly when a node without incoming edges is a frontend, API gateway or ingress |
| C4Generator.ActorsSound | src/c4/c4_generator.py:163-180 | User is found only for an entry node of an actor kind |
| C4Generator.ActorsComplete | src/c4/c4_generator.py:163-180 | an entry node of an actor kind always yields User |
| C4Generator.ContainerStep | src/c4/c4_generator.py:186-193 | the per-node function is the container test |
| C4Generator.ContainerCheckAt | src/c4/c4_generator.py:186-193 | a node outside the container kinds gives nothing; a container node without technology raises KeyError; otherwise it gives its entry with id, purpose and technology |
| C4Generator.ContainerCheckKeeps | src/c4/c4_generator.py:187-193 | an entry found belongs to a container-kind node and carries its technology |
| C4Generator.ContainersExact | src/c4/c4_generator.py:182-195 | an entry is listed exactly when it belongs to a service, database, cache, queue or frontend node and carries that node's purpose and technology |
| C4Generator.ContainersRaise | src/c4/c4_generator.py:182-195 | identifying the containers raises exactly when a container-kind node has no technology |
| C4Generator.EdgeRel | src/c4/c4_generator.py:102-107 | a relationship drawn from an edge keeps its source and target, takes the edge's description as its description and its protocol as its technology, '' when missing |
| C4Generator.EdgesWithin | src/c4/c4_generator.py:99-107 | at most one relationship per edge, each joining two listed ids; no ids, no relationships |
| C4Generator.EdgesWithinComplete | src/c4/c4_generator.py:99-107 | every edge with both ends listed yields its relationship |
| C4Generator.ContextElementsAt | src/c4/c4_generator.py:34-76 | the context elements are the system, then one system per external, then one person per actor, in order |
| C4Generator.ContextRelsAt | src/c4/c4_generator.py:56-76 | the context relationships are one per external, then one per actor, in order |
| C4Generator.ContextShape | src/c4/c4_generator.py:34-76 | externals are systems the system uses; actors are persons that use the system |
| C4Generator.SystemFirst | src/c4/c4_generator.py:39-70 | with no other id "system", the main system is the first element and the only one with that id |
| C4Generator.SystemOnce | src/c4/c4_generator.py:31-78 | when no node is called "system", the context diagram has exactly one element with id system, at the head |
| C4Generator.TechSuffix | src/c4/c4_generator.py:265 | the technology suffix is empty exactly when the technology is falsy |
| C4Generator.TechRelLinePlain | src/c4/c4_generator.py:264-268 | a container Rel line has the plain form exactly when its technology is falsy |
| C4Generator.MapToContainerType | src/c4/c4_generator.py:311-320 | ContainerDb exactly for database and cache; ContainerQueue exactly for queue; Container for every other type |
| C4Generator.ContainerLinesAreContainers | src/c4/c4_generator.py:90-96 | a container element from an entry of the container list is drawn as a plain Container with its technology |
| C4Generator.ContextFrame | src/c4/c4_generator.py:210-236 | the context diagram starts with @startuml and ends with @enduml |
| C4Generator.ContainerFrame | src/c4/c4_generator.py:245-272 | the container diagram starts with @startuml and ends with @enduml |
| C4Generator.ComponentFrame | src/c4/c4_generator.py:282-309 | the component diagram starts with @startuml, ends with @enduml, and holds one Component line per element inside the container boundary |
| C4Generator.SystemElementLine | src/c4/c4_generator.py:222-224 | the main system is drawn as System |
| C4Generator.ExternalLine | src/c4/c4_generator.py:225-226 | an external system is drawn as System_Ext |
| C4Generator.ActorLine | src/c4/c4_generator.py:220-221 | an actor is drawn as Person |
| C4Generator.ContextElementLines | src/c4/c4_generator.py:219-226 | the context element lines are System, then one System_Ext per external, then one Person per actor |
| C4Generator.ComponentDiagramEmpty | src/c4/c4_generator.py:111-140 | a component diagram never lists a component or a relationship, whatever the graph: nine lines only |
| C4Generator.ContainerDiagramEdges | src/c4/c4_generator.py:99-107 | the container diagram keeps an edge exactly when both of its ends are container-kind nodes |
| C4Generator.ContainerIdExact | src/c4/c4_generator.py:100-101 | the container ids are exactly the ids of the container-kind nodes |
| C4Generator.AllDiagramsRaisesOnContainer | src/c4/c4_generator.py:336-338 | as written, any graph with a container raises after writing the two first files |
| C4Generator.OneServiceRaises | src/c4/c4_generator.py:336-338 | as written, a graph with one service node does not complete |
| C4Generator.ServiceDiagrams | src/c4/c4_generator.py:337-340 | at most one component diagram per container |
| C4Generator.ServiceDiagramsSnoc | src/c4/c4_generator.py:337-340 | one more container adds its component file exactly when it is a service |
| C4Generator.ServiceDiagramsComplete | src/c4/c4_generator.py:337-340 | every service container gets its component file |
| C4Generator.AllDiagramsCorrected | src/c4/c4_generator.py:322-340 | with the type read from the node, the call completes exactly when both diagrams are generated, writing the context file then the container file first |
| C4Generator.CorrectedWritesEveryService | src/c4/c4_generator.py:335-340 | with the correction, every service node's component diagram is written under component_id.puml |
| C4Generator.ExternalEntry | src/c4/c4_generator.py:153-159 | one iteration of the external loop computes the node's external test |
| C4Generator.ContainerEntry | src/c4/c4_generator.py:187-193 | one iteration of the container loop computes the node's container test |
| C4Generator.CollectContainers | src/c4/c4_generator.py:182-195 | the container loop yields the containers, or raises as the specification says |
| C4Generator.CollectExternalSystems | src/c4/c4_generator.py:147-161 | the external loop yields the external systems, or raises as the specification says |
| C4Generator.Generator.constructor | src/c4/c4_generator.py:28-29 | the generator holds the knowledge graph given |
| C4Generator.Generator.InferSystemName | src/c4/c4_generator.py:142-145 | the system's name is always System, the main system element's name |
| C4Generator.Generator.IdentifyExternalSystems | src/c4/c4_generator.py:147-161 | the graph's external systems, per the specification above |
| C4Generator.Generator.IdentifyActors | src/c4/c4_generator.py:163-180 | the graph's actors, per the specification above |
| C4Generator.Generator.IdentifyContainers | src/c4/c4_generator.py:182-195 | the graph's containers, per the specification above |
| C4Generator.Generator.AddExternalSystems | src/c4/c4_generator.py:48-60 | one system element and one relationship per external system, in order |
| C4Generator.Generator.AddActors | src/c4/c4_generator.py:64-76 | one person element and one relationship per actor, in order |
| C4Generator.Generator.GenerateContextDiagram | src/c4/c4_generator.py:31-78 | the method yields the context diagram specified |
| C4Generator.Generator.GenerateContainerDiagram | src/c4/c4_generator.py:80-109 | the method yields the container diagram specified |
| C4Generator.Generator.LinkWithin | src/c4/c4_generator.py:99-107 | the edge loop collects exactly the edges whose both ends are listed |
| C4Generator.Generator.GetComponentsInContainer | src/c4/c4_generator.py:197-201 | no container has components |
| C4Generator.Generator.GenerateComponentDiagram | src/c4/c4_generator.py:111-140 | the method yields the (always empty) component diagram |
| C4Generator.Generator.RenderPlantumlContext | src/c4/c4_generator.py:203-236 | the context lines joined with newlines |
| C4Generator.Generator.DrawContextElements | src/c4/c4_generator.py:219-226 | the element loop draws persons and systems and skips every other type |
| C4Generator.Generator.RenderPlantumlContainer | src/c4/c4_generator.py:238-272 | the container lines joined with newlines |
| C4Generator.Generator.RenderPlantumlComponent | src/c4/c4_generator.py:274-309 | the component lines joined with newlines |
| C4Generator.Generator.GenerateAllDiagrams | src/c4/c4_generator.py:322-340 | the method writes what the as-written specification says, raising at the first container |
| C4Generator.Generator.GenerateServiceDiagrams | src/c4/c4_generator.py:335-340 | the corrected loop writes one component file per service container |
| C4Generator.Generator.GenerateAllDiagramsCorrected | src/c4/c4_generator.py:322-340 | the corrected method writes what the corrected specification says |
| PlantUmlRenderer.TechValueNonEmpty | src/models/architecture_model.py:12-22 | every technology has a non-empty value |
| PlantUmlRenderer.TechStr | src/renderer/plantuml_renderer.py:58 | the technology text is empty exactly when the list is missing or empty |
| PlantUmlRenderer.ProtocolSuffix | src/renderer/plantuml_renderer.py:75 | the protocol suffix is empty exactly when the protocol is falsy |
| PlantUmlRenderer.ProtocolRelLinePlain | src/renderer/plantuml_renderer.py:75-76 | a Rel line carries no protocol exactly when the protocol is falsy |
| PlantUmlRenderer.SystemLineKind | src/renderer/plantuml_renderer.py:23-27 | a system is drawn as System_Ext exactly when tagged external, and as System exactly when not |
| PlantUmlRenderer.LinksSystemsTest | src/renderer/plantuml_renderer.py:33-34 | the relationship filter is "both ends are system ids" |
| PlantUmlRenderer.ContextHead | src/renderer/plantuml_renderer.py:13-16 | the context diagram opens with @startuml and its title line names the model |
| PlantUmlRenderer.ContextRelsSound | src/renderer/plantuml_renderer.py:32-35 | every context Rel line comes from a relationship between two systems |
| PlantUmlRenderer.ContextRelsComplete | src/renderer/plantuml_renderer.py:32-35 | every relationship between two systems is drawn |
| PlantUmlRenderer.ContextFrame | src/renderer/plantuml_renderer.py:11-37 | the context diagram has seven fixed lines plus one per person, system and drawn relationship; it starts with @startuml, ends with @enduml and is titled after the model |
| PlantUmlRenderer.ContextPersonAt | src/renderer/plantuml_renderer.py:19-20 | the people are drawn right after the title, in order |
| PlantUmlRenderer.ContextSystemAt | src/renderer/plantuml_renderer.py:22-27 | the systems are drawn after the people, in order |
| PlantUmlRenderer.MainSystem | src/renderer/plantuml_renderer.py:52 | the main system is missing exactly when every system is external; otherwise it is the first system not tagged external |
| PlantUmlRenderer.TouchesContainerTest | src/renderer/plantuml_renderer.py:73-74 | the relationship filter is "either end is a container id" |
| PlantUmlRenderer.ContainerHead | src/renderer/plantuml_renderer.py:46-49 | the container diagram opens with @startuml and its title line names the model |
| PlantUmlRenderer.ContainerNoBoundary | src/renderer/plantuml_renderer.py:52-69 | without an internal system the containers are not drawn at all |
| PlantUmlRenderer.ContainerBoundary | src/renderer/plantuml_renderer.py:53-61 | with a main system, the containers sit inside its System_Boundary |
| PlantUmlRenderer.ContainerAt | src/renderer/plantuml_renderer.py:57-59 | each container is drawn inside the boundary, in order |
| PlantUmlRenderer.ExternalLinesExact | src/renderer/plantuml_renderer.py:65-67 | the System_Ext lines are exactly those of the external systems |
| PlantUmlRenderer.ContainerRelsSound | src/renderer/plantuml_renderer.py:72-76 | every container Rel line comes from a relationship touching a container |
| PlantUmlRenderer.ContainerRelsComplete | src/renderer/plantuml_renderer.py:72-76 | every relationship touching a container is drawn |
| PlantUmlRenderer.OtherThan | src/renderer/plantuml_renderer.py:110 | the filter keeps exactly the containers with another id |
| PlantUmlRenderer.TouchesComponentTest | src/renderer/plantuml_renderer.py:119 | the relationship filter is "either end is a component id" |
| PlantUmlRenderer.ComponentHead | src/renderer/plantuml_renderer.py:91-97 | the component diagram opens with @startuml, is titled after the container and opens its Container_Boundary |
| PlantUmlRenderer.ComponentDiagram | src/renderer/plantuml_renderer.py:85-89 | no diagram exactly when no container has the id |
| PlantUmlRenderer.ComponentBoundary | src/renderer/plantuml_renderer.py:97-105 | the boundary holds exactly the container's components and then closes |
| PlantUmlRenderer.ComponentAt | src/renderer/plantuml_renderer.py:100-103 | each component of the container is drawn inside the boundary, in order |
| PlantUmlRenderer.OtherContainersExact | src/renderer/plantuml_renderer.py:109-112 | the other Container lines are exactly those of the containers with another id |
| PlantUmlRenderer.ComponentRelsSound | src/renderer/plantuml_renderer.py:117-121 | every component Rel line comes from a relationship touching one of the container's components |
| PlantUmlRenderer.ComponentRelsComplete | src/renderer/plantuml_renderer.py:117-121 | every relationship touching one of the container's components is drawn |
| PlantUmlRenderer.ComponentIdsExact | src/renderer/plantuml_renderer.py:100-117 | the component ids are exactly the ids of the components whose container id is the one given |
| PlantUmlRenderer.PathsNonEmptyConcat | src/renderer/plantuml_renderer.py:139-140 | joining two lists of non-empty paths keeps every path non-empty |
| PlantUmlRenderer.ComponentFilesSnoc | src/renderer/plantuml_renderer.py:137-140 | one more container adds its component file |
| PlantUmlRenderer.ComponentEntryOfContainer | src/renderer/plantuml_renderer.py:87-89 | a container of the model always gets exactly one component file, with a non-empty path |
| PlantUmlRenderer.ComponentFilesCount | src/renderer/plantuml_renderer.py:137-140 | the component loop writes exactly one file per container, none with an empty path, so the emptiness test never drops one |
| PlantUmlRenderer.FixedFilesNonEmpty | src/renderer/plantuml_renderer.py:39-42 | the context and container paths are non-empty |
| PlantUmlRenderer.AllFilesCount | src/renderer/plantuml_renderer.py:130-142 | render_all returns exactly two plus one path per container, none empty |
| PlantUmlRenderer.RenderComponentIn | src/renderer/plantuml_renderer.py:85-128 | "" for an unknown container id; otherwise the path 03-component-name.puml and the component lines |
| PlantUmlRenderer.RenderComponentsIn | src/renderer/plantuml_renderer.py:137-140 | the loop writes the component file of every container, in order |
| PlantUmlRenderer.Renderer.constructor | src/renderer/plantuml_renderer.py:7-9 | the renderer keeps the output directory |
| PlantUmlRenderer.Renderer.RenderContext | src/renderer/plantuml_renderer.py:11-42 | the method writes the context lines to 01-system-context.puml |
| PlantUmlRenderer.Renderer.RenderContainer | src/renderer/plantuml_renderer.py:44-83 | the method writes the container lines to 02-container.puml |
| PlantUmlRenderer.Renderer.RenderComponent | src/renderer/plantuml_renderer.py:85-128 | "" for an unknown container id; otherwise the component file for that container |
| PlantUmlRenderer.Renderer.RenderAll | src/renderer/plantuml_renderer.py:130-142 | the context file, the container file, then one component file per container, and their paths in that order |
| Orchestrator.Gather | src/orchestrator.py:70-101 | a per-file try loop collects exactly the items of the files that do not raise |
| Orchestrator.GatherSnoc | src/orchestrator.py:70-101 | one more file adds its items, or nothing when it raises |
| Orchestrator.DockerfileComponents | src/orchestrator.py:70-75 | a Dockerfile that parses yields one container component named after its directory; an unreadable one raises |
| Orchestrator.KubernetesComponents | src/orchestrator.py:78-83 | a manifest file that parses yields one component per recognised document; an unreadable one raises |
| Orchestrator.KubernetesFn | src/orchestrator.py:78-83 | the per-file function is the Kubernetes parse |
| Orchestrator.TerraformComponents | src/orchestrator.py:86-91 | an unreadable or unparsable Terraform file raises; a loaded one yields exactly the components TerraformParser.parse gives for its configuration, all of the known resource kinds |
| Orchestrator.TerraformFn | src/orchestrator.py:86-91 | the per-file function is the Terraform parse |
| Orchestrator.FirstTen | src/orchestrator.py:96 | `files[:10]` is a prefix of at most ten files, and the whole list when it has no more |
| Orchestrator.AllComponents | src/orchestrator.py:64-103 | a component is collected exactly when it comes from a Dockerfile, Kubernetes file or Terraform file that parses, or from one of the first ten Python files that parses |
| Orchestrator.ParseAllFiles | src/orchestrator.py:64-103 | the components of the Dockerfiles, then the Kubernetes files, then the Terraform files, then the first ten Python files, each file that raises contributing nothing |
| Orchestrator.ParseDockerfiles | src/orchestrator.py:70-75 | the Dockerfile loop gathers one component per Dockerfile that parses |
| Orchestrator.ParseKubernetesFiles | src/orchestrator.py:78-83 | the Kubernetes loop gathers the components of every file that parses |
| Orchestrator.ParseTerraformFiles | src/orchestrator.py:86-91 | the Terraform loop gathers the components of every file that parses |
| Orchestrator.ParsePythonFiles | src/orchestrator.py:94-101 | the Python loop gathers the components of the first ten Python files that parse |
| Orchestrator.PythonBeyondTenIgnored | src/orchestrator.py:96 | Python files after the tenth change nothing |
| Orchestrator.StubPythonParse | src/scanner/ast_parser.py:52-96 | with `PythonASTParser.parse` as written, whose searches all return [], the components are those of the Dockerfiles, Kubernetes files and Terraform files alone |
| Orchestrator.IndexManifest | src/orchestrator.py:145-157 | an empty document changes nothing; a Service records its selector under its name and a Deployment its template labels, leaving the other index alone; any other kind changes nothing |
| Orchestrator.Selector | src/orchestrator.py:153 | a Service's selector is read exactly when the manifest and its spec are mappings, and is {} without a spec |
| Orchestrator.TemplateLabels | src/orchestrator.py:156 | a Deployment's template labels need a mapping manifest and are {} without a spec |
| Orchestrator.ManifestName | src/orchestrator.py:150 | the name is read exactly when the manifest and its metadata are mappings, and is None without metadata |
| Orchestrator.IndexManifests | src/orchestrator.py:145-157 | the manifest loop keeps both indexes well formed |
| Orchestrator.IndexFile | src/orchestrator.py:140-159 | one file's try keeps both indexes well formed |
| Orchestrator.IndexFiles | src/orchestrator.py:140-159 | the file loop keeps both indexes well formed |
| Orchestrator.SelectorMatches | src/orchestrator.py:164 | the match test is defined exactly when the selector is a mapping and the labels are a mapping or the selector is empty |
| Orchestrator.EmptySelectorMatchesAll | src/orchestrator.py:164 | an empty selector matches any labels |
| Orchestrator.SelectorMatchesExactly | src/orchestrator.py:164 | a selector matches exactly when each of its pairs is among the labels, a None value also matching a missing label |
| Orchestrator.Route | src/orchestrator.py:165-171 | a Service-to-Deployment link is a routes_to relationship over kubernetes |
| Orchestrator.RoutesFor | src/orchestrator.py:163-171 | linking a Service succeeds exactly when its selector can be applied to every Deployment |
| Orchestrator.RoutesForSnoc | src/orchestrator.py:163-171 | one more Deployment adds its route exactly when the selector matches it |
| Orchestrator.Routes | src/orchestrator.py:162-171 | linking succeeds exactly when every selector can be applied to every Deployment's labels |
| Orchestrator.RoutesForSound | src/orchestrator.py:163-171 | every route of a Service goes to a Deployment its selector matches |
| Orchestrator.RoutesForComplete | src/orchestrator.py:163-171 | every Deployment the selector matches gets a route |
| Orchestrator.RoutesSound | src/orchestrator.py:162-171 | every route joins a Service to a Deployment its selector matches |
| Orchestrator.RoutesComplete | src/orchestrator.py:162-171 | every matching Service and Deployment pair gets a route |
| Orchestrator.RoutesForSplit | src/orchestrator.py:163-171 | the inner loop's result splits at its last Deployment |
| Orchestrator.RoutesSplit | src/orchestrator.py:162-171 | the outer loop's result splits at its last Service |
| Orchestrator.EmptyIndex | src/orchestrator.py:137-138 | the indexes start empty and well formed |
| Orchestrator.K8sRelationshipShape | src/orchestrator.py:132-173 | every Kubernetes relationship is a routes_to over kubernetes from an indexed Service to an indexed Deployment its selector matches |
| Orchestrator.K8sKinds | src/orchestrator.py:162-171 | every Kubernetes relationship is a routes_to over kubernetes |
| Orchestrator.IndexRoutesShape | src/orchestrator.py:162-171 | every route joins an indexed Service and an indexed Deployment that match |
| Orchestrator.LaterServiceOverwrites | src/orchestrator.py:152-154 | a later Service of the same name replaces the earlier selector |
| Orchestrator.ExtractK8sRelationships | src/orchestrator.py:132-173 | the method yields the Kubernetes relationships specified, raising when a selector cannot be applied |
| Orchestrator.CollectK8s | src/orchestrator.py:140-159 | the file loop builds the index specified, well formed |
| Orchestrator.CollectManifests | src/orchestrator.py:145-157 | the manifest loop builds the index specified, well formed |
| Orchestrator.LinkServices | src/orchestrator.py:162-171 | the outer loop yields the routes specified |
| Orchestrator.LinkService | src/orchestrator.py:163-171 | the inner loop yields the routes of one Service |
| Orchestrator.DependsOn | src/orchestrator.py:193-199 | a depends_on entry yields a docker depends_on relationship from the service |
| Orchestrator.LinkTargetBeforeColon | src/orchestrator.py:204 | the link target is the text before the first ':', or the whole link |
| Orchestrator.LinkTo | src/orchestrator.py:205-211 | a link yields a docker links_to relationship from the service |
| Orchestrator.DependsOnAll | src/orchestrator.py:192-199 | one depends_on relationship per entry, in order |
| Orchestrator.LinkRun | src/orchestrator.py:203-211 | the link loop completes exactly when every link is a string; otherwise it stops at the first one that is not, keeping the relationships of the links before it |
| Orchestrator.ServiceRun | src/orchestrator.py:189-211 | a service whose config is not a mapping raises with nothing appended; otherwise its depends_on relationships come first |
| Orchestrator.ServiceRunParts | src/orchestrator.py:189-211 | a service raises unless its config is a mapping whose depends_on and links can be iterated; its relationships are one per depends_on entry, then the links loop's, and it completes exactly when the links loop does |
| Orchestrator.FirstRaiseMeaning | src/orchestrator.py:189-211 | every service before FirstRaise completes its loop, and the service at FirstRaise raises |
| Orchestrator.ServicesRun | src/orchestrator.py:189-211 | the services.items() loop completes exactly when no service raises; it keeps the relationships of every service before the first that raises, in order, then those that service appended before raising |
| Orchestrator.ServicesStep | src/orchestrator.py:189-211 | when the first service completes, the first raise is one later and the kept relationships are its relationships followed by those kept from the rest |
| Orchestrator.ServiceEntries | src/orchestrator.py:180-188 | only a readable file whose name contains docker-compose reaches the services loop; an empty YAML stream raises on compose.get |
| Orchestrator.ComposeFileRelationships | src/orchestrator.py:179-213 | a skipped file, or one that raises before its services loop, contributes nothing; otherwise the file contributes each service's depends_on and links relationships in services.items() order up to the first raise, keeping what the raising service appended; every compose relationship is a docker depends_on or links_to |
| Orchestrator.ComposeRelationships | src/orchestrator.py:175-215 | the compose relationships of all files are docker depends_on or links_to ones, and there are none when no file name contains docker-compose |
| Orchestrator.ServiceRunKinds | src/orchestrator.py:189-211 | one service's relationships are docker depends_on or links_to ones |
| Orchestrator.RunKinds | src/orchestrator.py:189-211 | the services loop yields only docker depends_on or links_to relationships |
| Orchestrator.BadLinkKeepsDependencies | src/orchestrator.py:191-213 | a link that is not a string ends the file's try, but the dependency appended before it is kept |
| Orchestrator.ExtractDockerComposeRelationships | src/orchestrator.py:175-215 | the method yields the compose relationships specified |
| Orchestrator.ComposeFile | src/orchestrator.py:180-213 | one file's try yields its compose relationships specified |
| Orchestrator.ComposeServices | src/orchestrator.py:189-211 | the services loop yields the run specified |
| Orchestrator.ComposeService | src/orchestrator.py:190-211 | one service yields the run specified |
| Orchestrator.CollectLinks | src/orchestrator.py:202-211 | the link loop yields the run specified |
| Orchestrator.ExtractRelationships | src/orchestrator.py:105-130 | the dependencies of the first ten Python files, then the Kubernetes relationships, then the compose relationships; a raise while linking Kubernetes is not caught |
| Orchestrator.AllRelationships | src/orchestrator.py:105-130 | relationship extraction raises exactly when the Kubernetes linking does; every relationship is a dependency of one of the first ten Python files, a Kubernetes route or a compose relationship |
| Orchestrator.StubPythonDeps | src/scanner/ast_parser.py:98-119 | with `extract_dependencies` as written, whose searches return [], relationship extraction raises exactly when the Kubernetes linking does, and otherwise yields the Kubernetes relationships followed by the compose ones |
| Orchestrator.MinePythonFiles | src/orchestrator.py:115-122 | the loop gathers the dependencies of the first ten Python files that do not raise |
| Orchestrator.ContextItems | src/orchestrator.py:227-230 | at most one node per component |
| Orchestrator.ContextNames | src/orchestrator.py:227-230 | the nodes added are exactly the components' names that have a semantic context |
| Orchestrator.ContextItemsStep | src/orchestrator.py:227-230 | the loop handles its first component, then the rest |
| Orchestrator.NameSetAppend | src/orchestrator.py:227-230 | the names of two runs of additions are the union of their names |
| Orchestrator.WithComponentNodes | src/orchestrator.py:227-230 | adding the components' nodes keeps the graph well formed |
| Orchestrator.WithRelationshipEdges | src/orchestrator.py:233-236 | adding the relationships' edges keeps the graph well formed |
| Orchestrator.EdgesKeepNodes | src/orchestrator.py:233-236 | adding edges removes no node |
| Orchestrator.EdgesTouchEndpoints | src/orchestrator.py:233-236 | after the relationships are added, both ends of each are nodes of the graph |
| Orchestrator.EdgeEntries | src/orchestrator.py:233-236 | one edge record per relationship |
| Orchestrator.EdgeEntriesAt | src/orchestrator.py:233-236 | each edge record is the one add_relationship builds for its relationship |
| Orchestrator.BuildKnowledgeGraph | src/orchestrator.py:217-236 | the builder gains one node per component with a semantic context and one edge per enriched relationship, and stays well formed |
| Orchestrator.AddComponents | src/orchestrator.py:227-230 | the component loop adds the nodes of the components with a context and no edge |
| Orchestrator.AddRelationships | src/orchestrator.py:233-236 | the relationship loop adds one edge per relationship and no other node record |
| Orchestrator.ContextlessNotAdded | src/orchestrator.py:227-230 | a new name is added exactly when some component of that name has a semantic context |
| DiGraph.Graph.AddNode | src/knowledge_graph/graph_builder.py:49-54 | `add_node` appends a new node last and merges the attributes of an existing one, changing no edge and no other node |
| DiGraph.Graph.AddEdge | src/knowledge_graph/graph_builder.py:71-75 | `add_edge` adds missing endpoints with no attributes, adds exactly the edge u to v, and merges the edge's attributes into those it had |
| DiGraph.InDegreeZero | src/knowledge_graph/graph_builder.py:90-92 | a node's in-degree is zero exactly when no edge enters it |
| DiGraph.EdgesMembers | src/generator/c4_model_builder.py:187 | the edge listing holds exactly the graph's edges |
| DiGraph.Descendants | src/knowledge_graph/graph_builder.py:118 | `nx.descendants` returns exactly the nodes reachable by one or more edges, never the start node itself |
| DiGraph.IsAcyclic | src/analyzer/semantic_analyzer.py:254 | `nx.is_directed_acyclic_graph` holds exactly when no node reaches itself |

## Left out

- The language model backends: the ollama client, the prompts' wording, all of `src/llm/llm_engine.py` (the LlamaCpp and transformers wrapper and `SemanticEnricher`), ChromaDB and the sentence embeddings. The client is the oracle `llm`; the enricher's results reach the orchestrator as parameters.
- `json.loads`, `json.dumps`, `yaml.safe_load`, `yaml.safe_load_all` and `hcl2.load`: foreign parsers and serialisers, so they are parameters or their outputs are inputs. In particular `json.dumps(component_info)[:1000]` in a prompt is not rendered; a `Prompt` records the data instead.
- Python's `ast`, javalang and tree-sitter: `PythonCodeParser.parse` (src/scanner/parsers/code_parser.py:179-215), the `PythonASTParser` stubs (src/scanner/ast_parser.py:44-119) and `_chunk_by_ast` need a foreign parser; the orchestrator takes the Python parser's two entry points as parameters.
- The file system: `rglob`, `os.walk`, `open`, `write_text` and `mkdir`. File contents arrive as text or loaded documents, and every write is replaced by returning the path and the text that would be written. Output paths whose names contain '/' are not normalised.
- `RepositoryScanner.scan` and its `_scan_docker_files`, `_scan_kubernetes_files`, `_scan_terraform_files` and `_scan_dependencies` walks: directory traversal. The readers they call (`_parse_requirements`, `_parse_go_mod`, `_parse_package_json`, `_is_kubernetes_manifest`) and the language table of `_scan_source_code` are modelled; `_parse_pom` returns a constant and is left out.
- `RepositoryAnalyzer`'s `_process_file`, `analyze_repository`, `_index_chunks` and `query_repository`: file traversal, embeddings and the vector store.
- `C4ArchitectureRecovery.__init__`, `run`, `_generate_diagrams` and `_export_results`, and `main.py`: sequencing, logging and I/O around the modelled steps. `_extract_relationships` receives its `components` argument but never reads it, so the model drops it; `_build_knowledge_graph` likewise ignores `relationships`.
- `Orchestrator.BuildKnowledgeGraph`: each enriched relationship arrives as a (relationship, semantic info) pair, so a `rel_data` entry lacking 'relationship' or 'semantic_info' (a KeyError) is not modelled.
- `SemanticAnalyzer._analyze_kubernetes` and `_analyze_terraform` (src/analyzer/semantic_analyzer.py:97-131): their results are stored under 'infrastructure', which no later step of `analyze` reads. A raise from the uncaught Kubernetes parse is not modelled either.
- `SemanticAnalysis.SemanticAnalyzer.ExtractInsights`: `nx.dag_longest_path_length` is the parameter `depth`, so the depth value itself is not computed.
- `KnowledgeGraphBuilder.calculate_criticality` (PageRank) and `detect_subsystems` (Louvain, randomised): floating-point and randomised library metrics.
- Python set iteration order: the external systems of `_identify_external_systems` and the technologies of `analyze_architecture_patterns` are listed each element once in an order the model leaves open.
- C4ModelBuilder.IdentifyExternalSystems: states the external systems as one per distinct pair, in an unspecified order; the order Python's set iteration would produce is not modelled.
- C4ModelBuilder.BuildRelationships: collects the relationships first and then appends them; a raise part-way leaves no partial list in the model, which `build` discards anyway.
- A partial graph after a raise: where the source raises part-way through an update (`_build_dependency_graph`, `build`), the model returns `None` and does not describe the half-updated state, which the caller never uses.
- Crash paths nothing catches (an unhashable name as a dict key) are approximated by `None` or left out; `True == 1` and other cross-type equalities of Python are not modelled.
- SemanticAnalysis.CodeInfo: `dict.update` with a sequence item whose key is a number, a boolean or null succeeds in Python under that non-string key; dict keys are strings here, so `Values.UpdatePair` rejects such an item and the file is treated as raising. A mapping item is read by its entries: one with three entries, two of them under the same key, is rejected, although the dict Python's decoder builds from it has two keys and would unpack.
- SemanticAnalysis.SemanticAnalyzer.Analyze: receives the Docker files and the code files by language, that is, it reads the attributes `RepositoryStructure` declares (`kubernetes_files`, `source_code`); the reads as written raise, which `AnalyzeAsWritten` records.
- The two description corrections under "## Findings" are not threaded through `C4ModelBuilder`: the builder calls `generate_component_description` as written, as src/generator/c4_model_builder.py:48, 104 and 151 do, so its descriptions keep the doubled period and the "{}." of a failed call.
- Import-time name errors: src/c4/c4_generator.py:28 annotates `__init__` with `KnowledgeGraphBuilder` and src/scanner/ast_parser.py:37 uses `Path`, neither imported there; src/knowledge_graph/graph_builder.py:14 annotates a field with `Optional[SemanticContext]` and lines 32 and 56 annotate parameters with `Component` and `Relationship`, none of the three imported (only `List`, `Dict` and `Set` come from typing); src/orchestrator.py:64 annotates `_parse_all_files` with `RepositoryStructure`, `List` and `Component`, while that file imports only `Path`, `Optional` and `logging`. Importing any of these modules would raise NameError; ast_parser.py also calls `yaml` and `hcl2` without importing them. The model treats every module as importable and these names as bound.
- Orchestrator.AllComponents and Orchestrator.AllRelationships take the Python parser as the parameters `pyParse` and `pyDeps`, which are more general than src/scanner/ast_parser.py as written: there every `_find_*` search (lines 69-96 and 113-119) returns [], so `parse` and `extract_dependencies` give [] for every file that opens. Orchestrator.StubPythonParse and Orchestrator.StubPythonDeps state what the results are under those stubs.
- `C4Element.tags` in `src/c4/c4_generator.py` is never set and never read, so the model leaves it out.
- `Display` renders strings exactly; other values use a fixed rendering that need not match Python's `str()` character for character.
- Character classes are ASCII only: `isdigit`, `isspace`, `lower`, `upper` and `strip` ignore Unicode tables.
- Integers are unbounded, as in Python; no width is modelled.
- `Config.setup_directories` creates directories; the constants of `config.py` are transcribed.

## Findings

| source | as written | input that shows it | evidently intended | confidence | as-written member | corrected member |
|---|---|---|---|---|---|---|
| src/analyzer/llm_engine.py:133-134 | the first two '.'-separated pieces are rejoined and a '.' is always appended | a one-sentence reply "A." becomes "A.." | a description that ends in exactly one period | not executed | LlmEngine.TwoSentencesDoublesPeriod | LlmEngine.TwoSentencesCorrected |
| src/analyzer/llm_engine.py:122-134 | a failed model call returns the text "{}", which is not blank, so the fallback description is skipped | a failed call gives the description "{}." | the "name - type in the system" fallback whenever no answer arrives | not executed | LlmEngine.FailedDescriptionIsBraces | LlmEngine.GenerateComponentDescriptionCorrected |
| src/analyzer/semantic_analyzer.py:43-52 | `analyze` reads `structure.k8s_files` and `structure.code_files`, while `RepositoryStructure` declares `kubernetes_files` and `source_code` | any repository structure: after the Docker analysis the read of `k8s_files` raises AttributeError | the Kubernetes files and the source code by language, under their declared names | not executed | SemanticAnalysis.SemanticAnalyzer.AnalyzeAsWritten | SemanticAnalysis.SemanticAnalyzer.Analyze |
| src/c4/c4_generator.py:336-340 | `cont['type']` is read from the entries of `_identify_containers`, which carry no 'type' | a graph with one service node raises KeyError after writing context.puml and container.puml | a component diagram for each service container, read from the node's type | not executed | C4Generator.OneServiceRaises | C4Generator.CorrectedWritesEveryService |
